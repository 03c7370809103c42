/**
 * The world the core acts on, abstracted as state plus an append-only log.
 *
 * `Host` gathers what the Tauri application and macOS give the core: events emitted
 * to the webviews, the tray icon, the indicator window, child processes run for the
 * clipboard and for AppleScript, removal of the recorded audio file, the system
 * clipboard, and the application's managed `AppState` (`is_recording`,
 * `last_transcription`, declared in src-tauri/src/lib.rs).  Every side effect is an
 * entry appended to `log`, so the order of effects across components is visible.
 */
module Effects {

  /** Events emitted with `app.emit(name, payload)`, one constructor per event name. */
  datatype Event =
    | RecordingStatus(recording: bool)    // "recording-status"
    | Error(message: string)              // "error"
    | IndicatorState(state: string)       // "indicator-state"
    | TranscriptionStatus(status: string) // "transcription-status"
    | Transcription(text: string)         // "transcription"

  /** Child processes run through `std::process::Command`. */
  datatype Command =
    | Pbpaste                 // read the clipboard
    | Pbcopy(input: string)   // write `input` to the clipboard
    | Osascript(script: string)

  datatype Effect =
    | Emitted(event: Event)
    | TrayIcon(recording: bool)
    | Ran(command: Command)
    | IndicatorShown(x: int, y: int, created: bool) // an existing window moved, or a new one built
    | IndicatorDestroyed                            // `destroy_indicator_window` was called
    | AudioFileRemoved(path: string)                // `std::fs::remove_file` was attempted

  class Host {
    var log: seq<Effect>
    var clipboard: string
    /** Whether a window labelled "indicator" exists. */
    var indicator: bool
    /** `AppState.is_recording`. */
    var isRecording: bool
    /** `AppState.last_transcription`. */
    var lastTranscription: string

    /** `AppState::default()`, an empty log, and whatever the clipboard holds at start. */
    constructor (clipboard: string)
      ensures log == [] && this.clipboard == clipboard && !indicator
      ensures !isRecording && lastTranscription == ""
    {
      log := [];
      this.clipboard := clipboard;
      indicator := false;
      isRecording := false;
      lastTranscription := "";
    }

    /** `app.emit(...)`: transport errors are discarded by every caller (`let _ =`). */
    method Emit(e: Event)
      modifies this`log
      ensures log == old(log) + [Emitted(e)]
    {
      log := log + [Emitted(e)];
    }

    method Record(e: Effect)
      modifies this`log
      ensures log == old(log) + [e]
    {
      log := log + [e];
    }
  }

  /** The number of events in `effects` that satisfy `p`. */
  function CountEvents(effects: seq<Effect>, p: Event -> bool): (n: nat)
    ensures n <= |effects|
  {
    if effects == [] then 0 else
      var last := effects[|effects| - 1];
      CountEvents(effects[..|effects| - 1], p) + (if last.Emitted? && p(last.event) then 1 else 0)
  }

  /** The number of times `command` was run in `effects`. */
  function CountRuns(effects: seq<Effect>, p: Command -> bool): (n: nat)
    ensures n <= |effects|
  {
    if effects == [] then 0 else
      var last := effects[|effects| - 1];
      CountRuns(effects[..|effects| - 1], p) + (if last.Ran? && p(last.command) then 1 else 0)
  }

  lemma {:induction false} CountEventsAppend(a: seq<Effect>, b: seq<Effect>, p: Event -> bool)
    ensures CountEvents(a + b, p) == CountEvents(a, p) + CountEvents(b, p)
  {
    if b != [] {
      assert (a + b)[..|a + b| - 1] == a + b[..|b| - 1];
      CountEventsAppend(a, b[..|b| - 1], p);
    } else {
      assert a + b == a;
    }
  }

  lemma {:induction false} CountRunsAppend(a: seq<Effect>, b: seq<Effect>, p: Command -> bool)
    ensures CountRuns(a + b, p) == CountRuns(a, p) + CountRuns(b, p)
  {
    if b != [] {
      assert (a + b)[..|a + b| - 1] == a + b[..|b| - 1];
      CountRunsAppend(a, b[..|b| - 1], p);
    } else {
      assert a + b == a;
    }
  }

  /** A log segment that emits no event satisfying `p` contributes nothing to its count. */
  lemma {:induction false} NoEventsCounted(effects: seq<Effect>, p: Event -> bool)
    requires forall i :: 0 <= i < |effects| ==> !(effects[i].Emitted? && p(effects[i].event))
    ensures CountEvents(effects, p) == 0
  {
    if effects != [] {
      NoEventsCounted(effects[..|effects| - 1], p);
    }
  }

  /** A log segment that runs no command satisfying `p` contributes nothing to its count. */
  lemma {:induction false} NoRunsCounted(effects: seq<Effect>, p: Command -> bool)
    requires forall i :: 0 <= i < |effects| ==> !(effects[i].Ran? && p(effects[i].command))
    ensures CountRuns(effects, p) == 0
  {
    if effects != [] {
      NoRunsCounted(effects[..|effects| - 1], p);
    }
  }
}
