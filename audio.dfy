/**
 * The buffer bookkeeping of the recording worker (`run_recording` in audio.rs):
 * every mono sample is appended to the recording, its magnitude to a level window
 * of 512 samples, and each time the window fills it is split into three chunks whose
 * levels replace the shared level vector, and the window is cleared. At Stop the
 * worker replies with a setup failure, the too-short error, or the WAV outcome.
 * Sample values are abstract integers; the level of a chunk is left abstract.
 */
module Audio {
  import opened Wrappers

  /** Samples per level update. */
  const LevelWindowSize := 512
  /** Recordings with fewer samples than this are rejected at Stop. */
  const MinSamples := 1000

  const TooShortMessage := "Recording too short" + " - hold the key longer"

  /** `f32::abs` on an abstract sample. */
  function Magnitude(x: int): nat {
    if x < 0 then -x else x
  }

  function Magnitudes(s: seq<int>): (m: seq<nat>)
    ensures |m| == |s| && forall i :: 0 <= i < |s| ==> m[i] == Magnitude(s[i])
  {
    seq(|s|, i requires 0 <= i < |s| => Magnitude(s[i]))
  }

  /** One bar of the meter: the initial 0.2, or the level computed from a chunk of magnitudes. */
  datatype Level = Initial | FromChunk(chunk: seq<nat>)

  const InitialLevels: seq<Level> := [Initial, Initial, Initial]

  /** Where chunk `i` of a window of `n` magnitudes starts, with chunk size `c = n / 3`. */
  function ChunkStart(i: nat, c: nat): nat {
    i * c
  }

  /** Where chunk `i` ends: the last chunk runs to the end of the window. */
  function ChunkEnd(i: nat, c: nat, n: nat): nat {
    if i == 2 then n else (i + 1) * c
  }

  /** The three levels `update_audio_levels` computes from a window. */
  function Bars(w: seq<nat>): (b: seq<Level>)
    requires |w| / 3 > 0
    ensures |b| == 3
  {
    var c := |w| / 3;
    [FromChunk(w[ChunkStart(0, c)..ChunkEnd(0, c, |w|)]),
     FromChunk(w[ChunkStart(1, c)..ChunkEnd(1, c, |w|)]),
     FromChunk(w[ChunkStart(2, c)..ChunkEnd(2, c, |w|)])]
  }

  /**
   * The three ranges are contiguous, non-empty and cover the window: `[0,c)`,
   * `[c,2c)` and `[2c,n)`, the last one taking the remainder.
   */
  lemma ChunksPartition(w: seq<nat>)
    requires |w| / 3 > 0
    ensures var c := |w| / 3;
      ChunkStart(0, c) == 0 && ChunkEnd(2, c, |w|) == |w|
      && ChunkEnd(0, c, |w|) == ChunkStart(1, c) && ChunkEnd(1, c, |w|) == ChunkStart(2, c)
      && (forall i :: 0 <= i < 3 ==> ChunkStart(i, c) < ChunkEnd(i, c, |w|))
      && ChunkEnd(2, c, |w|) - ChunkStart(2, c) == c + |w| % 3
    ensures Bars(w)[0].chunk + Bars(w)[1].chunk + Bars(w)[2].chunk == w
  {
    var c := |w| / 3;
    assert 3 * c + |w| % 3 == |w|;
    assert w[..c] + w[c..2 * c] + w[2 * c..] == w;
  }

  /** How the worker learned that setting up the input stream failed. */
  datatype SetupFailure =
    | NoDevice
    | ConfigFailed(e: string)
    | UnsupportedFormat
    | BuildFailed(e: string)
    | PlayFailed(e: string)

  /** The reply a setup failure produces when Stop arrives. */
  function SetupMessage(f: SetupFailure): string {
    match f
    case NoDevice => "No input device available"
    case ConfigFailed(e) => "Failed to get input config: " + e
    case UnsupportedFormat => "Unsupported sample format"
    case BuildFailed(e) => "Failed to build stream: " + e
    case PlayFailed(e) => "Failed to start stream: " + e
  }

  /** The outcome of writing the WAV file (the file system is an input). */
  datatype WavOutcome =
    | CreateFailed(e: string)
    | WriteFailed(e: string)
    | FinalizeFailed(e: string)
    | Written(path: string)

  function WavResult(w: WavOutcome): (r: Result<string>)
    ensures r.Ok? <==> w.Written?
  {
    match w
    case CreateFailed(e) => Err("Failed to create WAV file: " + e)
    case WriteFailed(e) => Err("Failed to write sample: " + e)
    case FinalizeFailed(e) => Err("Failed to finalize WAV: " + e)
    case Written(path) => Ok(path)
  }

  /** The levels after a recording of `samples`: those of the last full window, if any. */
  ghost function LevelsAfter(samples: seq<int>): seq<Level> {
    var n := |samples|;
    if n < LevelWindowSize then InitialLevels
    else
      var k := n - n % LevelWindowSize;
      Bars(Magnitudes(samples[k - LevelWindowSize..k]))
  }

  /** The magnitudes of the last `n % 512 + 1` samples, after one more sample. */
  lemma WindowStep(s: seq<int>, x: int)
    ensures var m := |s| % LevelWindowSize;
      Magnitudes((s + [x])[|s| - m..]) == Magnitudes(s[|s| - m..]) + [Magnitude(x)]
  {
    var m := |s| % LevelWindowSize;
    assert (s + [x])[|s| - m..] == s[|s| - m..] + [x];
  }

  /**
   * One more sample either grows the window and keeps the levels, or fills the
   * window, which then yields the new levels.
   */
  lemma LevelsStep(s: seq<int>, x: int)
    ensures var n := |s|; var m := n % LevelWindowSize;
      (m + 1 < LevelWindowSize ==>
        (n + 1) % LevelWindowSize == m + 1 && LevelsAfter(s + [x]) == LevelsAfter(s))
      && (m + 1 == LevelWindowSize ==>
        (n + 1) % LevelWindowSize == 0
        && LevelsAfter(s + [x]) == Bars(Magnitudes((s + [x])[n - m..])))
  {
    var n := |s|;
    var m := n % LevelWindowSize;
    WindowCountStep(n);
    if m + 1 < LevelWindowSize {
      if n >= LevelWindowSize {
        var k := n - m;
        assert (s + [x])[k - LevelWindowSize..k] == s[k - LevelWindowSize..k];
      }
    } else {
      assert (s + [x])[n - m..n + 1] == (s + [x])[n - m..];
    }
  }

  /** How the position in the current window moves on with one more sample. */
  lemma WindowCountStep(n: nat)
    ensures var m := n % LevelWindowSize;
      (m + 1 < LevelWindowSize ==> (n + 1) % LevelWindowSize == m + 1)
      && (m + 1 == LevelWindowSize ==> (n + 1) % LevelWindowSize == 0 && n + 1 - LevelWindowSize == n - m)
  {
    var q, m := n / LevelWindowSize, n % LevelWindowSize;
    assert n == LevelWindowSize * q + m;
    if m + 1 < LevelWindowSize {
      assert n + 1 == LevelWindowSize * q + (m + 1);
    } else {
      assert n + 1 == LevelWindowSize * (q + 1);
    }
  }

  /**
   * The buffers agree with the samples recorded so far: the window holds the
   * magnitudes of the samples since the last full window, and the levels are those of
   * the last full window.
   */
  ghost predicate Consistent(samples: seq<int>, window: seq<nat>, levels: seq<Level>) {
    && |window| == |samples| % LevelWindowSize
    && window == Magnitudes(samples[|samples| - |window|..])
    && levels == LevelsAfter(samples)
  }

  /** One more sample keeps the buffers consistent, whether or not it fills the window. */
  lemma SampleStep(samples: seq<int>, window: seq<nat>, levels: seq<Level>, x: int)
    requires Consistent(samples, window, levels)
    ensures |window| + 1 <= LevelWindowSize
    ensures |window| + 1 < LevelWindowSize ==> Consistent(samples + [x], window + [Magnitude(x)], levels)
    ensures |window| + 1 == LevelWindowSize ==>
      Consistent(samples + [x], [], Bars(window + [Magnitude(x)]))
  {
    WindowStep(samples, x);
    LevelsStep(samples, x);
    var n := |samples| + 1;
    assert (samples + [x])[n..] == [];
  }

  /** The state of one recording worker: its setup outcome and the three buffers it keeps. */
  class RecordingWorker {
    const setup: Option<SetupFailure>
    var samples: seq<int>
    var levelWindow: seq<nat>
    var levels: seq<Level>

    /**
     * The window holds the magnitudes of the samples since the last update, so it is
     * always shorter than 512, and the levels are those of the last full window. A
     * worker whose setup failed never receives samples.
     */
    ghost predicate Valid()
      reads this
    {
      && (setup.Some? ==> samples == [])
      && Consistent(samples, levelWindow, levels)
    }

    constructor (setup: Option<SetupFailure>)
      ensures Valid()
      ensures this.setup == setup && samples == [] && levelWindow == [] && levels == InitialLevels
    {
      this.setup := setup;
      samples := [];
      levelWindow := [];
      levels := InitialLevels;
    }

    /**
     * `update_audio_levels`: a window shorter than three leaves the levels alone;
     * otherwise the levels become the three bars of the window.
     */
    method UpdateAudioLevels(window: seq<nat>)
      modifies this`levels
      ensures |window| / 3 == 0 ==> levels == old(levels)
      ensures |window| / 3 > 0 ==> levels == Bars(window)
    {
      if |window| == 0 {
        return;
      }
      var c := |window| / 3;
      if c == 0 {
        return;
      }
      var bars: seq<Level> := [];
      for i := 0 to 3
        invariant bars == Bars(window)[..i]
      {
        var start := i * c;
        var end := if i == 2 then |window| else (i + 1) * c;
        bars := bars + [FromChunk(window[start..end])];
      }
      levels := bars;
    }

    /**
     * `process_mono_samples`: append the sample, append its magnitude to the window,
     * and when the window reaches 512 update the levels from it and clear it.
     */
    method ProcessSample(x: int)
      requires Valid() && setup.None?
      modifies this
      ensures Valid()
      ensures samples == old(samples) + [x]
      ensures |old(levelWindow)| + 1 < LevelWindowSize ==>
        levelWindow == old(levelWindow) + [Magnitude(x)] && levels == old(levels)
      ensures |old(levelWindow)| + 1 == LevelWindowSize ==>
        levelWindow == [] && levels == Bars(old(levelWindow) + [Magnitude(x)])
    {
      SampleStep(samples, levelWindow, levels, x);
      samples := samples + [x];
      levelWindow := levelWindow + [Magnitude(x)];
      if |levelWindow| >= LevelWindowSize {
        UpdateAudioLevels(levelWindow);
        levelWindow := [];
      }
    }

    /** The stream callback: process each mono value of a block, in order. */
    method ProcessBlock(monos: seq<int>)
      requires Valid() && setup.None?
      modifies this
      ensures Valid()
      ensures samples == old(samples) + monos
    {
      for i := 0 to |monos|
        invariant Valid()
        invariant samples == old(samples) + monos[..i]
      {
        ProcessSample(monos[i]);
        assert monos[..i + 1] == monos[..i] + [monos[i]];
      }
      assert monos[..|monos|] == monos;
    }

    /**
     * The reply to Stop: a setup failure is reported as such, fewer than 1000 samples
     * is too short (no file is written), and otherwise the WAV outcome decides. A path
     * is returned only when setup succeeded, there were enough samples and the file
     * was written.
     */
    function Reply(wav: WavOutcome): (r: Result<string>)
      reads this
      ensures setup.Some? ==> r == Err(SetupMessage(setup.value))
      ensures setup.None? && |samples| < MinSamples ==> r == Err(TooShortMessage)
      ensures setup.None? && |samples| >= MinSamples ==> r == WavResult(wav)
      ensures r.Ok? <==> setup.None? && |samples| >= MinSamples && wav.Written?
    {
      if setup.Some? then Err(SetupMessage(setup.value))
      else if |samples| < MinSamples then Err(TooShortMessage)
      else WavResult(wav)
    }

    /** `stop`: hand the worker the Stop command and wait for its reply. */
    method Stop(wav: WavOutcome) returns (r: Result<string>)
      ensures r == Reply(wav)
    {
      if setup.Some? {
        return Err(SetupMessage(setup.value));
      }
      if |samples| < MinSamples {
        return Err(TooShortMessage);
      }
      r := WavResult(wav);
    }
  }

  /**
   * `start_recording`: it never fails; the worker starts with no samples and all
   * three levels at their initial value, whatever the device setup will do.
   */
  method StartRecording(setup: Option<SetupFailure>) returns (r: Result<RecordingWorker>)
    ensures r.Ok? && fresh(r.value) && r.value.Valid()
    ensures r.value.setup == setup && r.value.samples == [] && r.value.levels == InitialLevels
  {
    var worker := new RecordingWorker(setup);
    r := Ok(worker);
  }

  /** A failed setup always surfaces at Stop, with its own message. */
  lemma SetupFailureRepliesAtStop(f: SetupFailure)
    ensures SetupMessage(f) != TooShortMessage
  {
    assert TooShortMessage[0] == 'R';
    match f {
      case NoDevice => assert SetupMessage(f)[0] == 'N';
      case ConfigFailed(e) => assert SetupMessage(f)[0] == 'F';
      case UnsupportedFormat => assert SetupMessage(f)[0] == 'U';
      case BuildFailed(e) => assert SetupMessage(f)[0] == 'F';
      case PlayFailed(e) => assert SetupMessage(f)[0] == 'F';
    }
  }
}
