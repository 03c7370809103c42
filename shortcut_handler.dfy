/**
 * The global-shortcut handler of src-tauri/src/lib.rs. Pressing the shortcut starts a
 * recording, unless the press comes within 300 ms of the last release; releasing it
 * stops polling the audio levels, takes the recording handle and, when there was one,
 * hands the recording to the delivery pipeline on a thread of its own.
 *
 * `RecorderState` is the class `Recorder`. `AppState.is_recording`, the tray icon, the
 * indicator window and the emitted events are kept in `Effects.Host`. Time is a
 * natural number of milliseconds. What the operating system answers during a press
 * (the frontmost application, whether the recorder starts, the builder of the
 * indicator, the activation script) is an input.
 */
module ShortcutHandler {
  import opened Wrappers
  import opened Effects
  import Settings
  import Audio
  import Window
  import Paste
  import Recording
  import Commands

  /** `RECORDING_DEBOUNCE_MS`. */
  const DebounceMs := 300
  /** Scrivano's own bundle identifier, which is never remembered as the original app. */
  const OwnBundleId := "com.tommyross" + ".scrivano"
  const StartFailedPrefix := "Failed to start recording: "
  const StopFailedPrefix := "Failed to stop recording: "

  /** `Instant::elapsed` in milliseconds: it never goes below zero. */
  function Elapsed(since: nat, now: nat): nat {
    if now >= since then now - since else 0
  }

  /**
   * Whether a press at `now` is ignored: only when a stop was recorded, and less than
   * 300 ms before.
   */
  function Debounced(lastStop: Option<nat>, now: nat): (r: bool)
    ensures r <==> lastStop.Some? && now < lastStop.value + DebounceMs
  {
    match lastStop
    case None => false
    case Some(t) => Elapsed(t, now) < DebounceMs
  }

  /** The application to give focus back to: the frontmost one, unless that is Scrivano. */
  function OriginalApp(frontmost: Option<string>): (r: Option<string>)
    ensures r.Some? <==> frontmost.Some? && frontmost.value != OwnBundleId
    ensures r.Some? ==> r == frontmost
  {
    match frontmost
    case Some(id) => if id != OwnBundleId then Some(id) else None
    case None => None
  }

  /** What the world answers during one press. */
  datatype PressWorld = PressWorld(
    frontmost: Option<string>,
    start: Result<Audio.RecordingWorker>,
    mouse: Option<(int, int)>,
    screenW: int,
    screenH: int,
    build: Result<Unit>,
    activation: Paste.ScriptOutcome)

  /** What `activate_app_fast` runs to give focus back to `app`, if there is one. */
  function RestoreFocus(app: Option<string>): seq<Effect> {
    match app
    case None => []
    case Some(id) => if Paste.ValidBundleId(id) then [Ran(Osascript(Paste.ActivateScript(id)))] else []
  }

  /** The effects of a press that starts a recording, with an indicator `present` or not. */
  function StartEffects(present: bool, w: PressWorld): seq<Effect> {
    Window.IndicatorEffects(present, w.mouse, w.screenW, w.screenH, w.build)
    + RestoreFocus(OriginalApp(w.frontmost))
    + [TrayIcon(true), Emitted(RecordingStatus(true))]
  }

  /**
   * What a press that starts a recording does outside `RecorderState`: show the
   * indicator, give focus back to the original application (ignoring whether that
   * worked), set `is_recording`, switch the tray icon and announce the recording.
   */
  method AnnounceStart(host: Host, w: PressWorld)
    modifies host`log, host`indicator, host`isRecording
    ensures host.isRecording && host.indicator == (old(host.indicator) || w.build.Ok?)
    ensures host.log == old(host.log) + StartEffects(old(host.indicator), w)
  {
    ghost var log0 := host.log;
    ghost var present := host.indicator;
    var app := OriginalApp(w.frontmost);
    var window, isNew := Window.CreateIndicatorWindow(host, w.mouse, w.screenW, w.screenH, w.build);
    if app.Some? {
      var _ := Paste.ActivateAppFast(host, app.value, w.activation);
    }
    ghost var log2 := host.log;
    host.isRecording := true;
    host.Record(TrayIcon(true));
    host.Emit(RecordingStatus(true));
    assert host.log == log2 + [TrayIcon(true), Emitted(RecordingStatus(true))];
    Recording.Regroup4(log0, Window.IndicatorEffects(present, w.mouse, w.screenW, w.screenH, w.build),
      RestoreFocus(app), [TrayIcon(true), Emitted(RecordingStatus(true))]);
  }

  /** A recording handed to the delivery thread, with the application it came from. */
  datatype Job = Job(worker: Audio.RecordingWorker, originalApp: Option<string>)

  /** `RecorderState`. */
  class Recorder {
    var handle: Option<Audio.RecordingWorker>
    /**
     * Every stop flag handed out so far, in order; a polling thread keeps watching the
     * flag that was current when it was spawned.
     */
    var stopFlags: seq<bool>
    /** Which of `stopFlags` is `stop_polling`. */
    var stopPolling: nat
    var originalApp: Option<string>
    var lastStopTime: Option<nat>

    /** `stop_polling` is a flag that was handed out, and Scrivano is never the original app. */
    ghost predicate Valid()
      reads this
    {
      && stopPolling < |stopFlags|
      && (originalApp.Some? ==> originalApp.value != OwnBundleId)
    }

    /** The state managed at startup: no handle, one unset flag, nothing remembered. */
    constructor ()
      ensures Valid()
      ensures handle.None? && stopFlags == [false] && stopPolling == 0
      ensures originalApp.None? && lastStopTime.None?
    {
      handle := None;
      stopFlags := [false];
      stopPolling := 0;
      originalApp := None;
      lastStopTime := None;
    }

    /**
     * `ShortcutState::Pressed`. A debounced press changes nothing and emits nothing.
     * A press whose recorder fails to start emits one error and changes nothing else.
     * Otherwise the indicator is shown, focus goes back to the original application,
     * the new handle, a fresh unset stop flag and the original application are stored
     * (replacing whatever was there: a press during a recording is not refused), and
     * the recording is announced. `started` says whether a recording was started.
     */
    method Press(host: Host, now: nat, w: PressWorld) returns (started: bool)
      requires Valid()
      modifies this, host`log, host`indicator, host`isRecording
      ensures Valid()
      ensures started <==> !Debounced(old(lastStopTime), now) && w.start.Ok?
      ensures !started ==>
        && handle == old(handle) && stopFlags == old(stopFlags) && stopPolling == old(stopPolling)
        && originalApp == old(originalApp) && lastStopTime == old(lastStopTime)
        && host.isRecording == old(host.isRecording) && host.indicator == old(host.indicator)
      ensures Debounced(old(lastStopTime), now) ==> host.log == old(host.log)
      ensures !Debounced(old(lastStopTime), now) && w.start.Err? ==>
        host.log == old(host.log) + [Emitted(Error(StartFailedPrefix + w.start.error))]
      ensures started ==>
        && handle == Some(w.start.value)
        && stopFlags == old(stopFlags) + [false] && stopPolling == |old(stopFlags)|
        && originalApp == OriginalApp(w.frontmost) && lastStopTime == old(lastStopTime)
        && host.isRecording
        && host.indicator == (old(host.indicator) || w.build.Ok?)
        && host.log == old(host.log) + StartEffects(old(host.indicator), w)
    {
      if Debounced(lastStopTime, now) {
        return false;
      }
      var app := OriginalApp(w.frontmost);
      match w.start {
        case Err(e) =>
          host.Emit(Error(StartFailedPrefix + e));
          return false;
        case Ok(worker) =>
          stopFlags := stopFlags + [false];
          stopPolling := |stopFlags| - 1;
          handle := Some(worker);
          originalApp := app;
          AnnounceStart(host, w);
          return true;
      }
    }

    /**
     * `ShortcutState::Released`, whatever came before it: the current stop flag is
     * set, the stop time is stamped (so a release after a debounced press restarts
     * the debounce), the handle is taken, and the end of the recording is announced.
     * The original application is kept. A job is returned exactly when a handle was
     * taken, and it carries the original application remembered at the press.
     */
    method Release(host: Host, now: nat) returns (job: Option<Job>)
      requires Valid()
      modifies this, host`log, host`isRecording
      ensures Valid()
      ensures stopFlags == old(stopFlags)[old(stopPolling) := true] && stopPolling == old(stopPolling)
      ensures lastStopTime == Some(now) && handle.None? && originalApp == old(originalApp)
      ensures !host.isRecording
      ensures host.log == old(host.log) + [TrayIcon(false), Emitted(RecordingStatus(false))]
      ensures job.Some? <==> old(handle).Some?
      ensures job.Some? ==> job.value == Job(old(handle).value, old(originalApp))
    {
      stopFlags := stopFlags[stopPolling := true];
      var app := originalApp;
      lastStopTime := Some(now);
      var taken := handle;
      handle := None;
      host.isRecording := false;
      host.Record(TrayIcon(false));
      host.Emit(RecordingStatus(false));
      job := match taken
        case Some(worker) => Some(Job(worker, app))
        case None => None;
    }
  }

  /**
   * The thread a release spawns for a taken handle: the worker is told to stop; its
   * path goes to `handle_recording_stop` with the job's original application, and a
   * failure is reported once and the indicator destroyed, with no transcription.
   */
  method RunJob(host: Host, job: Job, wav: Audio.WavOutcome,
                settings: Settings.AppSettings, keychain: map<string, string>, ins: Recording.Inputs)
    modifies host`log, host`clipboard, host`indicator, host`lastTranscription
    ensures job.worker.Reply(wav).Err? ==>
      && host.log == old(host.log) + [Emitted(Error(StopFailedPrefix + job.worker.Reply(wav).error)), IndicatorDestroyed]
      && !host.indicator
      && host.clipboard == old(host.clipboard) && host.lastTranscription == old(host.lastTranscription)
    ensures job.worker.Reply(wav).Ok? ==>
      var d := Recording.Deliver(job.worker.Reply(wav).value,
        Settings.ApiKeyFor(settings.transcription.provider, keychain),
        old(host.clipboard), ins, Recording.PasteOf(job.originalApp, old(host.clipboard), ins));
      && host.log == old(host.log) + d.effects
      && host.clipboard == d.clipboard
      && host.lastTranscription == (if d.transcript.Some? then d.transcript.value else old(host.lastTranscription))
      && host.indicator == (old(host.indicator) && !d.destroyed)
  {
    var stopped := job.worker.Stop(wav);
    match stopped {
      case Ok(path) =>
        Recording.HandleRecordingStop(host, path, job.originalApp, settings, keychain, ins);
      case Err(e) =>
        host.Emit(Error(StopFailedPrefix + e));
        Window.DestroyIndicatorWindow(host);
    }
  }

  /**
   * Two accepted presses with no release between them, then a release. The second
   * press replaces the first handle and stop flag, so the release stops only the
   * second polling thread: the first flag stays unset, and the job handed on is the
   * second recording.
   */
  method PressPressRelease(r: Recorder, host: Host, t1: nat, w1: PressWorld, t2: nat, w2: PressWorld, t3: nat)
    returns (job: Option<Job>)
    requires r.Valid() && w1.start.Ok? && w2.start.Ok?
    requires !Debounced(r.lastStopTime, t1) && !Debounced(r.lastStopTime, t2)
    modifies r, host`log, host`indicator, host`isRecording
    ensures var first := |old(r.stopFlags)|;
      |r.stopFlags| == first + 2 && !r.stopFlags[first] && r.stopFlags[first + 1]
    ensures job == Some(Job(w2.start.value, OriginalApp(w2.frontmost)))
  {
    var first := r.Press(host, t1, w1);
    var second := r.Press(host, t2, w2);
    job := r.Release(host, t3);
  }

  /**
   * The shortcut registered at startup: the configured modifiers, where none means no
   * modifiers at all, and the configured key, or Space when the key is not recognised.
   */
  method StartupShortcut(config: Settings.ShortcutConfig) returns (s: Settings.Shortcut)
    ensures s.mods.None? <==> Settings.ModifiersOf(config.modifiers) == {}
    ensures s.mods.Some? ==> s.mods.value == Settings.ModifiersOf(config.modifiers)
    ensures Settings.ParseKey(config.key).Some? ==> s.key == Settings.ParseKey(config.key).value
    ensures Settings.ParseKey(config.key).None? ==> s.key == Settings.Space
  {
    var mods := Settings.ParseModifiers(config.modifiers);
    var key := match Settings.ParseKey(config.key)
      case Some(k) => k
      case None => Settings.Space;
    s := Commands.MakeShortcut(mods, key);
  }

  /** The default configuration registers super+shift+Space. */
  method DefaultStartupShortcut() returns (s: Settings.Shortcut)
    ensures s == Settings.Shortcut(Some({Settings.Super, Settings.Shift}), Settings.Space)
  {
    s := StartupShortcut(Settings.DefaultShortcut);
    Settings.DefaultsParse();
  }
}
