/**
 * `handle_recording_stop` (src-tauri/src/recording.rs): what happens to a finished
 * recording. The steps run in a fixed order: show "processing", resolve the API key
 * of the selected provider, announce "Transcribing...", transcribe, store and emit
 * the transcript, then hide the indicator and paste, and finally remove the audio
 * file. Before every step that touches the indicator or pastes, the handler looks at
 * `AppState.is_recording` again, because the user may have started a new recording
 * meanwhile; those answers, the HTTP exchange and the outcomes of the clipboard
 * commands are inputs.
 */
module Recording {
  import opened Wrappers
  import opened Effects
  import Settings
  import Tr = Transcription
  import Paste
  import Window
  import Text

  const NoKeyMessage := "No API key configured." + " Please add an API key in Settings."
  const TranscribingStatus := "Transcribing..."

  /**
   * What the world answers during one delivery. `activeAtEntry` is `is_recording` at
   * the first check; `activeLater` is its value at the one later check that the path
   * taken performs (every path performs exactly one more).
   */
  datatype Inputs = Inputs(
    activeAtEntry: bool,
    activeLater: bool,
    transcribed: Result<string>,
    paste: Paste.PasteWorld)

  /**
   * What a delivery does: the effects appended to the log, the transcript stored in
   * `last_transcription` (if one is), the clipboard afterwards, and whether the
   * indicator was destroyed.
   */
  datatype Delivery = Delivery(effects: seq<Effect>, transcript: Option<string>, clipboard: string, destroyed: bool)

  /** The paste a delivery performs: into the original application when there is one. */
  function PasteRun(text: string, originalApp: Option<string>, clipboard: string, w: Paste.PasteWorld): Paste.Outcome {
    match originalApp
    case Some(id) => Paste.PasteToAppRun(text, id, clipboard, w)
    case None => Paste.SetClipboardAndPasteRun(text, clipboard, w)
  }

  /**
   * The outcome of the paste this delivery would make of its transcript; without a
   * transcript nothing is pasted, and no effect happens.
   */
  function PasteOf(originalApp: Option<string>, clipboard: string, ins: Inputs): Paste.Outcome {
    match ins.transcribed
    case Ok(text) => PasteRun(text, originalApp, clipboard, ins.paste)
    case Err(_) => Paste.Outcome([], clipboard, Ok(Unit))
  }

  /** The log segment of one guarded indicator destruction. */
  function DestroyUnlessActive(active: bool): seq<Effect> {
    if active then [] else [IndicatorDestroyed]
  }

  /** The error event a failed paste adds. */
  function PasteFailure(r: Result<Unit>): seq<Effect> {
    if r.Err? then [Emitted(Error("Failed to paste: " + r.error))] else []
  }

  /** The first, guarded step: tell the indicator that the recording is being processed. */
  function Entry(ins: Inputs): seq<Effect> {
    if ins.activeAtEntry then [] else [Emitted(IndicatorState("processing"))]
  }

  /** No key was found: report it, and hide the indicator unless a recording is active. */
  function MissingKey(clipboard: string, ins: Inputs): Delivery {
    Delivery([Emitted(Error(NoKeyMessage))] + DestroyUnlessActive(ins.activeLater), None, clipboard, !ins.activeLater)
  }

  /** Everything after a key was found: transcribe, then store, emit and paste, or report. */
  function WithKey(audioPath: string, clipboard: string, ins: Inputs, pasted: Paste.Outcome): Delivery {
    var started := [Emitted(TranscriptionStatus(TranscribingStatus))];
    var removed := [AudioFileRemoved(audioPath)];
    match ins.transcribed
    case Err(e) =>
      Delivery(started + [Emitted(Error("Transcription failed: " + e))] + DestroyUnlessActive(ins.activeLater) + removed,
        None, clipboard, !ins.activeLater)
    case Ok(text) =>
      var d := Shown(text, clipboard, ins, pasted);
      Delivery(started + d.effects + removed, d.transcript, d.clipboard, d.destroyed)
  }

  /**
   * A transcript was produced: store and emit it, then, unless a recording is active,
   * hide the indicator and paste, with outcome `pasted`.
   */
  function Shown(text: string, clipboard: string, ins: Inputs, pasted: Paste.Outcome): Delivery {
    var shown := [Emitted(Event.Transcription(text))];
    if ins.activeLater then Delivery(shown, Some(text), clipboard, false)
    else Delivery(shown + [IndicatorDestroyed] + pasted.effects + PasteFailure(pasted.result), Some(text), pasted.clipboard, true)
  }

  /**
   * The delivery of the recording at `audioPath`, with `apiKey` the selected provider's
   * key, when the paste, if one is made, has outcome `pasted`.
   */
  function Deliver(audioPath: string, apiKey: Option<string>, clipboard: string, ins: Inputs, pasted: Paste.Outcome): Delivery {
    var d := match apiKey
      case None => MissingKey(clipboard, ins)
      case Some(_) => WithKey(audioPath, clipboard, ins, pasted);
    Delivery(Entry(ins) + d.effects, d.transcript, d.clipboard, d.destroyed)
  }

  /**
   * `handle_recording_stop` with the given settings and keychain contents. The log,
   * the clipboard, `last_transcription` and the indicator end up as `Deliver` says,
   * with the paste `PasteOf` makes.
   */
  method HandleRecordingStop(host: Host, audioPath: string, originalApp: Option<string>,
                             settings: Settings.AppSettings, keychain: map<string, string>, ins: Inputs)
    modifies host`log, host`clipboard, host`indicator, host`lastTranscription
    ensures var d := Deliver(audioPath, Settings.ApiKeyFor(settings.transcription.provider, keychain),
        old(host.clipboard), ins, PasteOf(originalApp, old(host.clipboard), ins));
      host.log == old(host.log) + d.effects
      && host.clipboard == d.clipboard
      && host.lastTranscription == (if d.transcript.Some? then d.transcript.value else old(host.lastTranscription))
      && host.indicator == (old(host.indicator) && !d.destroyed)
  {
    ghost var log0 := host.log;
    if !ins.activeAtEntry {
      host.Emit(IndicatorState("processing"));
    }
    var apiKey := Settings.ApiKeyFor(settings.transcription.provider, keychain);
    ghost var d := Deliver(audioPath, apiKey, host.clipboard, ins, PasteOf(originalApp, host.clipboard, ins));
    if apiKey.None? {
      ReportMissingKey(host, ins);
    } else {
      TranscribeAndDeliver(host, audioPath, originalApp, ins);
    }
    Regroup3(log0, Entry(ins), d.effects[|Entry(ins)|..]);
  }

  /** The steps when no key was found, as `MissingKey` says. */
  method ReportMissingKey(host: Host, ins: Inputs)
    modifies host`log, host`indicator
    ensures var d := MissingKey(old(host.clipboard), ins);
      host.log == old(host.log) + d.effects && host.indicator == (old(host.indicator) && !d.destroyed)
  {
    ghost var log0 := host.log;
    host.Emit(Error(NoKeyMessage));
    if !ins.activeLater {
      Window.DestroyIndicatorWindow(host);
    }
    Regroup3(log0, [Emitted(Error(NoKeyMessage))], DestroyUnlessActive(ins.activeLater));
  }

  /** The steps after the key was found, as `WithKey` says. */
  method TranscribeAndDeliver(host: Host, audioPath: string, originalApp: Option<string>, ins: Inputs)
    modifies host`log, host`clipboard, host`indicator, host`lastTranscription
    ensures var d := WithKey(audioPath, old(host.clipboard), ins, PasteOf(originalApp, old(host.clipboard), ins));
      host.log == old(host.log) + d.effects
      && host.clipboard == d.clipboard
      && host.lastTranscription == (if d.transcript.Some? then d.transcript.value else old(host.lastTranscription))
      && host.indicator == (old(host.indicator) && !d.destroyed)
  {
    ghost var log0 := host.log;
    host.Emit(TranscriptionStatus(TranscribingStatus));
    var started := [Emitted(TranscriptionStatus(TranscribingStatus))];
    match ins.transcribed {
      case Ok(text) =>
        ghost var d := Shown(text, host.clipboard, ins, PasteRun(text, originalApp, host.clipboard, ins.paste));
        ShowTranscript(host, text, originalApp, ins);
        host.Record(AudioFileRemoved(audioPath));
        Regroup4(log0, started, d.effects, [AudioFileRemoved(audioPath)]);
      case Err(e) =>
        host.Emit(Error("Transcription failed: " + e));
        if !ins.activeLater {
          Window.DestroyIndicatorWindow(host);
        }
        host.Record(AudioFileRemoved(audioPath));
        Regroup5(log0, started, [Emitted(Error("Transcription failed: " + e))],
          DestroyUnlessActive(ins.activeLater), [AudioFileRemoved(audioPath)]);
    }
  }

  /** Store and emit `text`, then, as `Shown` says, hide the indicator and paste. */
  method ShowTranscript(host: Host, text: string, originalApp: Option<string>, ins: Inputs)
    modifies host`log, host`clipboard, host`indicator, host`lastTranscription
    ensures var d := Shown(text, old(host.clipboard), ins, PasteRun(text, originalApp, old(host.clipboard), ins.paste));
      host.log == old(host.log) + d.effects
      && host.clipboard == d.clipboard
      && host.lastTranscription == text
      && host.indicator == (old(host.indicator) && !d.destroyed)
  {
    ghost var log0 := host.log;
    ghost var o := PasteRun(text, originalApp, host.clipboard, ins.paste);
    host.lastTranscription := text;
    host.Emit(Event.Transcription(text));
    if !ins.activeLater {
      Window.DestroyIndicatorWindow(host);
      PasteTranscript(host, text, originalApp, ins.paste);
      Regroup5(log0, [Emitted(Event.Transcription(text))], [IndicatorDestroyed], o.effects, PasteFailure(o.result));
    }
  }

  /** Paste `text` as `PasteRun` says, and report a paste error. */
  method PasteTranscript(host: Host, text: string, originalApp: Option<string>, w: Paste.PasteWorld)
    modifies host`log, host`clipboard
    ensures var o := PasteRun(text, originalApp, old(host.clipboard), w);
      host.log == old(host.log) + o.effects + PasteFailure(o.result) && host.clipboard == o.clipboard
  {
    var pasted: Result<Unit>;
    if originalApp.Some? {
      pasted := Paste.PasteToApp(host, text, originalApp.value, w);
    } else {
      pasted := Paste.SetClipboardAndPaste(host, text, w);
    }
    if pasted.Err? {
      host.Emit(Error("Failed to paste: " + pasted.error));
    }
  }

  /** The events counted as reported errors. */
  function IsErrorEvent(e: Event): bool {
    e.Error?
  }

  /** The command every paste starts with: reading the clipboard to save it. */
  function ReadsClipboard(c: Command): bool {
    c == Pbpaste
  }

  /**
   * What every paste looks like from outside: it only runs commands, and it reads the
   * clipboard once, first.
   */
  ghost predicate IsPaste(o: Paste.Outcome) {
    && |o.effects| >= 1 && o.effects[0] == Ran(Pbpaste)
    && (forall i :: 0 <= i < |o.effects| ==> o.effects[i].Ran?)
    && (forall i :: 1 <= i < |o.effects| ==> o.effects[i].command != Pbpaste)
  }

  /** Both pastes a delivery can make are pastes in that sense. */
  lemma PasteRunIsPaste(text: string, originalApp: Option<string>, clipboard: string, w: Paste.PasteWorld)
    ensures IsPaste(PasteRun(text, originalApp, clipboard, w))
  {
    Paste.PasteRunsOnlyRunCommands(text, if originalApp.Some? then originalApp.value else "", clipboard, w);
  }

  /** The paste `HandleRecordingStop` makes, when it makes one, is a paste. */
  lemma PasteOfIsPaste(originalApp: Option<string>, clipboard: string, ins: Inputs)
    requires ins.transcribed.Ok?
    ensures IsPaste(PasteOf(originalApp, clipboard, ins))
  {
    PasteRunIsPaste(ins.transcribed.value, originalApp, clipboard, ins.paste);
  }

  /** The log of each path of a delivery, as a left-to-right list of segments. */
  lemma DeliverySegments(audioPath: string, apiKey: Option<string>, clipboard: string, ins: Inputs, pasted: Paste.Outcome)
    ensures var d := Deliver(audioPath, apiKey, clipboard, ins, pasted);
      var entry, started, removed := Entry(ins), [Emitted(TranscriptionStatus(TranscribingStatus))], [AudioFileRemoved(audioPath)];
      var destroy := DestroyUnlessActive(ins.activeLater);
      (apiKey.None? ==> d.effects == entry + [Emitted(Error(NoKeyMessage))] + destroy)
      && (apiKey.Some? && ins.transcribed.Err? ==>
        d.effects == entry + started + [Emitted(Error("Transcription failed: " + ins.transcribed.error))] + destroy + removed)
      && (apiKey.Some? && ins.transcribed.Ok? && ins.activeLater ==>
        d.effects == entry + started + [Emitted(Event.Transcription(ins.transcribed.value))] + removed)
      && (apiKey.Some? && ins.transcribed.Ok? && !ins.activeLater ==>
        d.effects == entry + started + [Emitted(Event.Transcription(ins.transcribed.value))] + [IndicatorDestroyed]
          + pasted.effects + (PasteFailure(pasted.result) + removed))
  {
    var d := Deliver(audioPath, apiKey, clipboard, ins, pasted);
    var entry, started, removed := Entry(ins), [Emitted(TranscriptionStatus(TranscribingStatus))], [AudioFileRemoved(audioPath)];
    var destroy := DestroyUnlessActive(ins.activeLater);
    match apiKey {
      case None =>
        Regroup3(entry, [Emitted(Error(NoKeyMessage))], destroy);
      case Some(_) =>
        match ins.transcribed {
          case Err(e) =>
            Regroup5(entry, started, [Emitted(Error("Transcription failed: " + e))], destroy, removed);
          case Ok(text) =>
            var shown := [Emitted(Event.Transcription(text))];
            if ins.activeLater {
              Regroup4(entry, started, shown, removed);
            } else {
              RegroupAroundPaste(entry, started, shown, IndicatorDestroyed, pasted.effects, PasteFailure(pasted.result), removed);
            }
        }
    }
  }

  /**
   * The first effect of every delivery tells whether a new recording was active at
   * entry: "processing" is shown exactly when none was.
   */
  lemma ProcessingShownOnlyWhenIdle(audioPath: string, apiKey: Option<string>, clipboard: string, ins: Inputs, pasted: Paste.Outcome)
    ensures var d := Deliver(audioPath, apiKey, clipboard, ins, pasted);
      |d.effects| > 0 && (d.effects[0] == Emitted(IndicatorState("processing")) <==> !ins.activeAtEntry)
  {
  }

  /**
   * Without a key nothing is transcribed, pasted or removed: one error is reported,
   * and the indicator is destroyed only if no new recording is active.
   */
  lemma MissingKeyStopsEarly(audioPath: string, clipboard: string, ins: Inputs, pasted: Paste.Outcome)
    ensures var d := Deliver(audioPath, None, clipboard, ins, pasted);
      d.transcript == None && d.clipboard == clipboard
      && (forall i :: 0 <= i < |d.effects| ==> !d.effects[i].Ran? && !d.effects[i].AudioFileRemoved?)
      && Emitted(TranscriptionStatus(TranscribingStatus)) !in d.effects
      && Emitted(Error(NoKeyMessage)) in d.effects
      && (IndicatorDestroyed in d.effects <==> !ins.activeLater)
  {
    var d := Deliver(audioPath, None, clipboard, ins, pasted);
    DeliverySegments(audioPath, None, clipboard, ins, pasted);
    assert d.effects[|Entry(ins)|] == Emitted(Error(NoKeyMessage));
  }

  /** A transcript is stored and emitted whether or not a new recording is active. */
  lemma TranscriptAlwaysStored(audioPath: string, key: string, clipboard: string, ins: Inputs, pasted: Paste.Outcome, text: string)
    requires ins.transcribed == Ok(text)
    ensures var d := Deliver(audioPath, Some(key), clipboard, ins, pasted);
      d.transcript == Some(text) && Emitted(Event.Transcription(text)) in d.effects
  {
    var d := Deliver(audioPath, Some(key), clipboard, ins, pasted);
    DeliverySegments(audioPath, Some(key), clipboard, ins, pasted);
    assert d.effects[|Entry(ins)| + 1] == Emitted(Event.Transcription(text));
  }

  /**
   * While a new recording is active at the later check nothing is pasted: no command
   * runs, the clipboard is untouched and the indicator stays.
   */
  lemma NothingPastedWhileRecording(audioPath: string, apiKey: Option<string>, clipboard: string, ins: Inputs, pasted: Paste.Outcome)
    requires ins.activeLater
    ensures var d := Deliver(audioPath, apiKey, clipboard, ins, pasted);
      (forall i :: 0 <= i < |d.effects| ==> !d.effects[i].Ran? && d.effects[i] != IndicatorDestroyed)
      && d.clipboard == clipboard && !d.destroyed
  {
    var d := Deliver(audioPath, apiKey, clipboard, ins, pasted);
    DeliverySegments(audioPath, apiKey, clipboard, ins, pasted);
  }

  /**
   * With a transcript and no new recording, the indicator is destroyed and then the
   * paste is made, before anything else has run a command; the clipboard ends as the
   * paste leaves it.
   */
  lemma PasteFollowsIndicator(audioPath: string, key: string, clipboard: string, ins: Inputs, pasted: Paste.Outcome, text: string)
    requires ins.transcribed == Ok(text) && !ins.activeLater
    ensures var d := Deliver(audioPath, Some(key), clipboard, ins, pasted);
      var k := |Entry(ins)| + 2;
      k + 1 + |pasted.effects| <= |d.effects|
      && d.effects[k] == IndicatorDestroyed && d.effects[k + 1..k + 1 + |pasted.effects|] == pasted.effects
      && d.clipboard == pasted.clipboard && d.destroyed
      && (forall i :: 0 <= i < k ==> !d.effects[i].Ran?)
  {
    DeliverySegments(audioPath, Some(key), clipboard, ins, pasted);
    var pre := Entry(ins) + [Emitted(TranscriptionStatus(TranscribingStatus))] + [Emitted(Event.Transcription(text))];
    Segment(pre, IndicatorDestroyed, pasted.effects, PasteFailure(pasted.result) + [AudioFileRemoved(audioPath)]);
  }

  /**
   * The indicator is destroyed exactly when no new recording is active at the later
   * check, on every path.
   */
  lemma IndicatorGuarded(audioPath: string, apiKey: Option<string>, clipboard: string, ins: Inputs, pasted: Paste.Outcome)
    requires apiKey.Some? && ins.transcribed.Ok? && !ins.activeLater ==> IsPaste(pasted)
    ensures var d := Deliver(audioPath, apiKey, clipboard, ins, pasted);
      (d.destroyed <==> !ins.activeLater) && (IndicatorDestroyed in d.effects <==> !ins.activeLater)
  {
    DeliverySegments(audioPath, apiKey, clipboard, ins, pasted);
  }

  /**
   * A failed transcription pastes nothing and stores nothing; it reports one error
   * quoting the failure.
   */
  lemma TranscriptionFailureReported(audioPath: string, key: string, clipboard: string, ins: Inputs, pasted: Paste.Outcome, e: string)
    requires ins.transcribed == Err(e)
    ensures var d := Deliver(audioPath, Some(key), clipboard, ins, pasted);
      d.transcript == None && d.clipboard == clipboard
      && (forall i :: 0 <= i < |d.effects| ==> !d.effects[i].Ran?)
      && Emitted(Error("Transcription failed: " + e)) in d.effects
  {
    var d := Deliver(audioPath, Some(key), clipboard, ins, pasted);
    DeliverySegments(audioPath, Some(key), clipboard, ins, pasted);
    assert d.effects[|Entry(ins)| + 1] == Emitted(Error("Transcription failed: " + e));
  }

  /**
   * Each delivery reports at most one error: exactly one when the key is missing, the
   * transcription failed, or the paste it made failed, and none otherwise.
   */
  lemma OneErrorAtMost(audioPath: string, apiKey: Option<string>, clipboard: string, ins: Inputs, pasted: Paste.Outcome)
    requires apiKey.Some? && ins.transcribed.Ok? && !ins.activeLater ==> IsPaste(pasted)
    ensures var d := Deliver(audioPath, apiKey, clipboard, ins, pasted);
      CountEvents(d.effects, IsErrorEvent)
      == if apiKey.None? || ins.transcribed.Err? || (!ins.activeLater && pasted.result.Err?) then 1 else 0
  {
    if apiKey.None? {
      ErrorsWithoutKey(audioPath, clipboard, ins, pasted);
    } else if ins.transcribed.Err? {
      ErrorsAfterFailedTranscription(audioPath, apiKey.value, clipboard, ins, pasted);
    } else if ins.activeLater {
      ErrorsWhileRecording(audioPath, apiKey.value, clipboard, ins, pasted);
    } else {
      ErrorsAfterPaste(audioPath, apiKey.value, clipboard, ins, pasted);
    }
  }

  /** The missing-key path reports exactly its own error. */
  lemma ErrorsWithoutKey(audioPath: string, clipboard: string, ins: Inputs, pasted: Paste.Outcome)
    ensures CountEvents(Deliver(audioPath, None, clipboard, ins, pasted).effects, IsErrorEvent) == 1
  {
    DeliverySegments(audioPath, None, clipboard, ins, pasted);
    QuietSegments(audioPath, ins, "");
    var destroy := DestroyUnlessActive(ins.activeLater);
    OneErrorIn(Entry(ins), [Emitted(Error(NoKeyMessage))], destroy, []);
    assert Entry(ins) + [Emitted(Error(NoKeyMessage))] + destroy + [] == Entry(ins) + [Emitted(Error(NoKeyMessage))] + destroy;
  }

  /** A failed transcription reports exactly its own error. */
  lemma ErrorsAfterFailedTranscription(audioPath: string, key: string, clipboard: string, ins: Inputs, pasted: Paste.Outcome)
    requires ins.transcribed.Err?
    ensures CountEvents(Deliver(audioPath, Some(key), clipboard, ins, pasted).effects, IsErrorEvent) == 1
  {
    DeliverySegments(audioPath, Some(key), clipboard, ins, pasted);
    QuietSegments(audioPath, ins, "");
    OneErrorIn(Entry(ins) + [Emitted(TranscriptionStatus(TranscribingStatus))],
      [Emitted(Error("Transcription failed: " + ins.transcribed.error))],
      DestroyUnlessActive(ins.activeLater), [AudioFileRemoved(audioPath)]);
  }

  /** A transcript shown while a new recording is active reports nothing. */
  lemma ErrorsWhileRecording(audioPath: string, key: string, clipboard: string, ins: Inputs, pasted: Paste.Outcome)
    requires ins.transcribed.Ok? && ins.activeLater
    ensures CountEvents(Deliver(audioPath, Some(key), clipboard, ins, pasted).effects, IsErrorEvent) == 0
  {
    DeliverySegments(audioPath, Some(key), clipboard, ins, pasted);
    QuietSegments(audioPath, ins, ins.transcribed.value);
    NoErrorIn(Entry(ins) + [Emitted(TranscriptionStatus(TranscribingStatus))] + [Emitted(Event.Transcription(ins.transcribed.value))],
      [AudioFileRemoved(audioPath)]);
  }

  /** A transcript that is pasted reports an error exactly when the paste failed. */
  lemma ErrorsAfterPaste(audioPath: string, key: string, clipboard: string, ins: Inputs, pasted: Paste.Outcome)
    requires IsPaste(pasted) && ins.transcribed.Ok? && !ins.activeLater
    ensures CountEvents(Deliver(audioPath, Some(key), clipboard, ins, pasted).effects, IsErrorEvent)
      == if pasted.result.Err? then 1 else 0
  {
    DeliverySegments(audioPath, Some(key), clipboard, ins, pasted);
    QuietSegments(audioPath, ins, ins.transcribed.value);
    PasteErrors(Entry(ins) + [Emitted(TranscriptionStatus(TranscribingStatus))]
      + [Emitted(Event.Transcription(ins.transcribed.value))] + [IndicatorDestroyed],
      pasted, [AudioFileRemoved(audioPath)]);
  }

  /** The segments of a delivery log that never report an error. */
  lemma QuietSegments(audioPath: string, ins: Inputs, text: string)
    ensures var entry, started := Entry(ins), [Emitted(TranscriptionStatus(TranscribingStatus))];
      var shown := [Emitted(Event.Transcription(text))];
      CountEvents(entry, IsErrorEvent) == 0 && CountEvents(entry + started, IsErrorEvent) == 0
      && CountEvents(entry + started + shown, IsErrorEvent) == 0
      && CountEvents(entry + started + shown + [IndicatorDestroyed], IsErrorEvent) == 0
      && CountEvents(DestroyUnlessActive(ins.activeLater), IsErrorEvent) == 0
      && CountEvents([], IsErrorEvent) == 0
      && CountEvents([AudioFileRemoved(audioPath)], IsErrorEvent) == 0
  {
    var entry, started := Entry(ins), [Emitted(TranscriptionStatus(TranscribingStatus))];
    var shown := [Emitted(Event.Transcription(text))];
    NoEventsCounted(entry, IsErrorEvent);
    NoEventsCounted(entry + started, IsErrorEvent);
    NoEventsCounted(entry + started + shown, IsErrorEvent);
    NoEventsCounted(entry + started + shown + [IndicatorDestroyed], IsErrorEvent);
    NoEventsCounted(DestroyUnlessActive(ins.activeLater), IsErrorEvent);
    NoEventsCounted([AudioFileRemoved(audioPath)], IsErrorEvent);
  }

  /**
   * Each delivery makes at most one paste: the clipboard is read once when a transcript
   * is pasted, and never otherwise.
   */
  lemma OnePasteAtMost(audioPath: string, apiKey: Option<string>, clipboard: string, ins: Inputs, pasted: Paste.Outcome)
    requires apiKey.Some? && ins.transcribed.Ok? && !ins.activeLater ==> IsPaste(pasted)
    ensures var d := Deliver(audioPath, apiKey, clipboard, ins, pasted);
      CountRuns(d.effects, ReadsClipboard) == if apiKey.Some? && ins.transcribed.Ok? && !ins.activeLater then 1 else 0
  {
    var d := Deliver(audioPath, apiKey, clipboard, ins, pasted);
    if apiKey.None? {
      MissingKeyStopsEarly(audioPath, clipboard, ins, pasted);
      NoRunsCounted(d.effects, ReadsClipboard);
    } else if ins.transcribed.Err? {
      TranscriptionFailureReported(audioPath, apiKey.value, clipboard, ins, pasted, ins.transcribed.error);
      NoRunsCounted(d.effects, ReadsClipboard);
    } else if ins.activeLater {
      NothingPastedWhileRecording(audioPath, apiKey, clipboard, ins, pasted);
      NoRunsCounted(d.effects, ReadsClipboard);
    } else {
      DeliverySegments(audioPath, apiKey, clipboard, ins, pasted);
      var pre := Entry(ins) + [Emitted(TranscriptionStatus(TranscribingStatus))]
        + [Emitted(Event.Transcription(ins.transcribed.value))] + [IndicatorDestroyed];
      PasteReadsOnce(pre, pasted, PasteFailure(pasted.result) + [AudioFileRemoved(audioPath)]);
    }
  }

  /** A paste between two segments that run nothing is the one read of the clipboard. */
  lemma PasteReadsOnce(pre: seq<Effect>, pasted: Paste.Outcome, post: seq<Effect>)
    requires IsPaste(pasted)
    requires forall i :: 0 <= i < |pre| ==> !pre[i].Ran?
    requires forall i :: 0 <= i < |post| ==> !post[i].Ran?
    ensures CountRuns(pre + pasted.effects + post, ReadsClipboard) == 1
  {
    var first, rest := pasted.effects[..1], pasted.effects[1..];
    assert pasted.effects == first + rest;
    NoRunsCounted(pre, ReadsClipboard);
    NoRunsCounted(rest, ReadsClipboard);
    NoRunsCounted(post, ReadsClipboard);
    CountRunsAppend(first, rest, ReadsClipboard);
    assert first[..0] == [];
    CountRunsAppend(pre, pasted.effects, ReadsClipboard);
    CountRunsAppend(pre + pasted.effects, post, ReadsClipboard);
  }

  /** A failed paste is reported, and the transcript it could not paste stays stored. */
  lemma PasteFailureKeepsTranscript(audioPath: string, key: string, clipboard: string, ins: Inputs, pasted: Paste.Outcome, text: string)
    requires ins.transcribed == Ok(text) && !ins.activeLater && pasted.result.Err?
    ensures var d := Deliver(audioPath, Some(key), clipboard, ins, pasted);
      d.transcript == Some(text) && Emitted(Error("Failed to paste: " + pasted.result.error)) in d.effects
  {
    var d := Deliver(audioPath, Some(key), clipboard, ins, pasted);
    DeliverySegments(audioPath, Some(key), clipboard, ins, pasted);
    var pre := Entry(ins) + [Emitted(TranscriptionStatus(TranscribingStatus))] + [Emitted(Event.Transcription(text))]
      + [IndicatorDestroyed] + pasted.effects;
    assert d.effects == pre + (PasteFailure(pasted.result) + [AudioFileRemoved(audioPath)]);
    assert d.effects[|pre|] == Emitted(Error("Failed to paste: " + pasted.result.error));
  }

  /**
   * A deny-listed phrase returned by a successful exchange is never pasted: the
   * delivery reports the no-speech error and runs no command.
   */
  lemma HallucinationNeverPasted(audioPath: string, key: string, clipboard: string, ins: Inputs, pasted: Paste.Outcome,
                                 status: nat, reason: Option<string>, body: string, raw: string)
    requires Tr.IsSuccess(status) && Tr.IsHallucination(Text.Trim(raw))
    requires ins.transcribed == Tr.Transcribe(Tr.Answered(status, reason, body, Ok(raw)))
    ensures var d := Deliver(audioPath, Some(key), clipboard, ins, pasted);
      (forall i :: 0 <= i < |d.effects| ==> !d.effects[i].Ran?)
      && Emitted(Error("Transcription failed: " + Tr.NoSpeechMessage)) in d.effects
      && d.transcript == None
  {
    Tr.HallucinationRejected(status, reason, body, raw);
    TranscriptionFailureReported(audioPath, key, clipboard, ins, pasted, Tr.NoSpeechMessage);
  }

  lemma NoErrorIn(a: seq<Effect>, b: seq<Effect>)
    requires CountEvents(a, IsErrorEvent) == 0 && CountEvents(b, IsErrorEvent) == 0
    ensures CountEvents(a + b, IsErrorEvent) == 0
  {
    CountEventsAppend(a, b, IsErrorEvent);
  }

  /** The errors of a log segment that pastes: those the paste failure reports. */
  lemma PasteErrors(pre: seq<Effect>, pasted: Paste.Outcome, post: seq<Effect>)
    requires IsPaste(pasted)
    requires CountEvents(pre, IsErrorEvent) == 0 && CountEvents(post, IsErrorEvent) == 0
    ensures CountEvents(pre + pasted.effects + (PasteFailure(pasted.result) + post), IsErrorEvent)
      == if pasted.result.Err? then 1 else 0
  {
    NoEventsCounted(pasted.effects, IsErrorEvent);
    CountEventsAppend(pre, pasted.effects, IsErrorEvent);
    CountEventsAppend(pre + pasted.effects, PasteFailure(pasted.result) + post, IsErrorEvent);
    CountEventsAppend(PasteFailure(pasted.result), post, IsErrorEvent);
    var f := PasteFailure(pasted.result);
    if f != [] {
      assert f[..0] == [];
    }
  }

  /** The count of errors in four segments of which only the second holds one. */
  lemma OneErrorIn(a: seq<Effect>, b: seq<Effect>, c: seq<Effect>, d: seq<Effect>)
    requires CountEvents(a, IsErrorEvent) == 0 && CountEvents(c, IsErrorEvent) == 0 && CountEvents(d, IsErrorEvent) == 0
    requires |b| == 1 && b[0].Emitted? && b[0].event.Error?
    ensures CountEvents(a + b + c + d, IsErrorEvent) == 1
  {
    CountEventsAppend(a + b + c, d, IsErrorEvent);
    CountEventsAppend(a + b, c, IsErrorEvent);
    CountEventsAppend(a, b, IsErrorEvent);
    assert b[..0] == [];
  }

  /**
   * The audio file is removed, as the last step, whenever a key was found; the early
   * return for a missing key skips it.
   */
  lemma AudioFileRemovedLast(audioPath: string, apiKey: Option<string>, clipboard: string, ins: Inputs, pasted: Paste.Outcome)
    ensures var d := Deliver(audioPath, apiKey, clipboard, ins, pasted);
      (apiKey.Some? ==> d.effects[|d.effects| - 1] == AudioFileRemoved(audioPath))
      && (apiKey.None? ==> forall i :: 0 <= i < |d.effects| ==> !d.effects[i].AudioFileRemoved?)
  {
    DeliverySegments(audioPath, apiKey, clipboard, ins, pasted);
  }

  /** The layout of a log between regroupings. */
  lemma RegroupAroundPaste<T>(a: seq<T>, b: seq<T>, c: seq<T>, x: T, m: seq<T>, f: seq<T>, g: seq<T>)
    ensures a + (b + (c + [x] + m + f) + g) == a + b + c + [x] + m + (f + g)
  {
  }

  /** Where the parts of `pre + [x] + mid + post` sit. */
  lemma Segment<T>(pre: seq<T>, x: T, mid: seq<T>, post: seq<T>)
    ensures var s := pre + [x] + mid + post;
      |s| == |pre| + 1 + |mid| + |post| && s[|pre|] == x
      && s[|pre| + 1..|pre| + 1 + |mid|] == mid && s[..|pre|] == pre
  {
    var s := pre + [x] + mid + post;
    assert s[|pre| + 1..|pre| + 1 + |mid|] == mid;
    assert s[..|pre|] == pre;
  }

  /** Regrouping a log built by appending segments one after another. */
  lemma Regroup3<T>(a: seq<T>, b: seq<T>, c: seq<T>)
    ensures a + b + c == a + (b + c)
  {
  }

  lemma Regroup4<T>(a: seq<T>, b: seq<T>, c: seq<T>, d: seq<T>)
    ensures a + b + c + d == a + (b + c + d)
  {
  }

  lemma Regroup5<T>(a: seq<T>, b: seq<T>, c: seq<T>, d: seq<T>, e: seq<T>)
    ensures a + b + c + d + e == a + (b + c + d + e)
  {
  }
}
