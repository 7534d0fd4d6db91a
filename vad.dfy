/** The energy-threshold voice activity detector (src/server/src/vad.py).

    The detector keeps a rolling buffer of the latest samples, bounded in
    length, and the chunks received while the energy of the latest window
    stays above a threshold. When the energy falls back while a run is in
    progress, the run ends: a long enough run is reported as a segment that
    is a suffix of the buffer (the run plus half a window of leading
    context), and either way the detector starts over from an empty buffer. */
module VoiceActivity {
  import opened Samples

  /** The detector's run state: the rolling buffer, the chunks of the current
      speech run and whether a run is in progress. */
  datatype VadState = VadState(buffer: seq<real>, speechSegments: seq<seq<real>>, speechDetected: bool)

  /** What `detect` reports: no segment, or the detected segment. */
  datatype Detection = NotDetected | Detected(segment: seq<real>)

  /** The lengths fixed at construction, in samples. */
  datatype VadConfig = VadConfig(energyWindowSize: int, minSpeechLength: int, maxBufferLength: int)

  /** The energy window and the buffer bound hold at least one sample. */
  predicate WellFormed(c: VadConfig)
  {
    c.energyWindowSize > 0 && c.maxBufferLength > 0
  }

  /** The state `reset()` leaves: empty buffer, no run. */
  const Cleared: VadState := VadState([], [], false)

  /** A run is in progress exactly when it holds at least one chunk. */
  predicate RunConsistent(s: VadState)
  {
    s.speechDetected <==> s.speechSegments != []
  }

  /** The number of samples of the current speech run. */
  function RunLength(s: VadState): nat
  {
    |Flatten(s.speechSegments)|
  }

  /** The rolling buffer after truncation: `buffer[-maxLength:]` when it is
      too long. */
  function KeepLatest(buffer: seq<real>, maxLength: int): seq<real>
    requires maxLength > 0
  {
    if |buffer| > maxLength then buffer[|buffer| - maxLength..] else buffer
  }

  /** Truncation keeps the longest suffix that the bound allows. */
  lemma KeepLatestIsLongestSuffix(buffer: seq<real>, maxLength: int)
    requires maxLength > 0
    ensures var kept := KeepLatest(buffer, maxLength);
      |kept| == Min(|buffer|, maxLength) && kept == buffer[|buffer| - |kept|..]
  {
  }

  /** The mean-square energy of a window: its summed energy over its length. */
  function AverageEnergy(window: seq<real>): (e: real)
    requires |window| > 0
  {
    SumSquares(window) / |window| as real
  }

  /** The average energy of a window exceeds the threshold. */
  predicate IsLoud(window: seq<real>, threshold: real)
    requires |window| > 0
  {
    AverageEnergy(window) > threshold
  }

  /** The buffer the detector holds after appending `data` to `s`. */
  function Appended(c: VadConfig, s: VadState, data: seq<real>): seq<real>
    requires WellFormed(c)
  {
    KeepLatest(s.buffer + data, c.maxBufferLength)
  }

  /** One call of `detect(data)`: the new state and what is reported. */
  function DetectStep(c: VadConfig, threshold: real, s: VadState, data: seq<real>): (VadState, Detection)
    requires WellFormed(c)
  {
    var buffer := Appended(c, s, data);
    if |buffer| < c.energyWindowSize then
      (s.(buffer := buffer), NotDetected)
    else if IsLoud(buffer[|buffer| - c.energyWindowSize..], threshold) then
      (VadState(buffer, s.speechSegments + [data], true), NotDetected)
    else if !s.speechDetected then
      (s.(buffer := buffer), NotDetected)
    else if RunLength(s) >= c.minSpeechLength then
      var start := Max(0, |buffer| - RunLength(s) - c.energyWindowSize / 2);
      (Cleared, Detected(buffer[start..]))
    else
      (Cleared, NotDetected)
  }

  /** After every call the buffer respects its bound, and it is either the
      cleared buffer of a reset or the latest samples of the old buffer
      followed by `data`; a run is in progress exactly when it holds chunks. */
  lemma DetectKeepsBufferBounded(c: VadConfig, threshold: real, s: VadState, data: seq<real>)
    requires WellFormed(c)
    ensures var r := DetectStep(c, threshold, s, data);
      && |r.0.buffer| <= c.maxBufferLength
      && (r.0 == Cleared || r.0.buffer == Appended(c, s, data))
      && (RunConsistent(s) ==> RunConsistent(r.0))
  {
  }

  /** A segment is reported only when a run of at least the minimum length
      ends; the detector is then cleared, and the segment is the suffix of the
      buffer that holds the run plus half a window before it. */
  lemma DetectionOnlyAfterLongRun(c: VadConfig, threshold: real, s: VadState, data: seq<real>)
    requires WellFormed(c)
    ensures var r := DetectStep(c, threshold, s, data);
      r.1.Detected? ==>
        && s.speechDetected && RunLength(s) >= c.minSpeechLength && r.0 == Cleared
        && var b := Appended(c, s, data);
           |r.1.segment| == Min(|b|, RunLength(s) + c.energyWindowSize / 2) &&
           r.1.segment == b[|b| - |r.1.segment|..]
  {
  }

  /** While the buffer is shorter than one energy window nothing is
      classified: the run is left as it was. */
  lemma ShortBufferLeavesRun(c: VadConfig, threshold: real, s: VadState, data: seq<real>)
    requires WellFormed(c)
    requires |Appended(c, s, data)| < c.energyWindowSize
    ensures DetectStep(c, threshold, s, data) == (s.(buffer := Appended(c, s, data)), NotDetected)
  {
  }

  /** A loud window extends the run with `data` and reports nothing. */
  lemma LoudWindowExtendsRun(c: VadConfig, threshold: real, s: VadState, data: seq<real>)
    requires WellFormed(c)
    requires |Appended(c, s, data)| >= c.energyWindowSize
    requires var b := Appended(c, s, data); IsLoud(b[|b| - c.energyWindowSize..], threshold)
    ensures var r := DetectStep(c, threshold, s, data);
      r.1 == NotDetected && r.0.speechDetected &&
      r.0.speechSegments == s.speechSegments + [data] && r.0.buffer == Appended(c, s, data)
  {
  }

  /** A quiet window with no run in progress only updates the buffer. */
  lemma QuietWithoutRunOnlyBuffers(c: VadConfig, threshold: real, s: VadState, data: seq<real>)
    requires WellFormed(c) && !s.speechDetected
    requires |Appended(c, s, data)| >= c.energyWindowSize
    requires var b := Appended(c, s, data); !IsLoud(b[|b| - c.energyWindowSize..], threshold)
    ensures DetectStep(c, threshold, s, data) == (s.(buffer := Appended(c, s, data)), NotDetected)
  {
  }

  /** A quiet window during a run ends it: the detector is cleared, and the
      segment is reported exactly when the run is long enough. */
  lemma QuietWindowEndsRun(c: VadConfig, threshold: real, s: VadState, data: seq<real>)
    requires WellFormed(c) && s.speechDetected
    requires |Appended(c, s, data)| >= c.energyWindowSize
    requires var b := Appended(c, s, data); !IsLoud(b[|b| - c.energyWindowSize..], threshold)
    ensures var b := Appended(c, s, data);
      DetectStep(c, threshold, s, data) ==
        if RunLength(s) >= c.minSpeechLength
        then (Cleared, Detected(b[|b| - Min(|b|, RunLength(s) + c.energyWindowSize / 2)..]))
        else (Cleared, NotDetected)
  {
  }

  /** Feeding the chunks one after another: the final state and the
      reports, in order. */
  function DetectAll(c: VadConfig, threshold: real, s: VadState, chunks: seq<seq<real>>): (r: (VadState, seq<Detection>))
    requires WellFormed(c)
    ensures |r.1| == |chunks|
    decreases |chunks|
  {
    if chunks == [] then (s, [])
    else
      var first := DetectStep(c, threshold, s, chunks[0]);
      var rest := DetectAll(c, threshold, first.0, chunks[1..]);
      (rest.0, [first.1] + rest.1)
  }

  /** All samples of every chunk are silent. */
  predicate AllSilent(chunks: seq<seq<real>>)
  {
    forall k, i :: 0 <= k < |chunks| && 0 <= i < |chunks[k]| ==> chunks[k][i] == 0.0
  }

  /** With a non-negative threshold, silence fed to a detector whose buffer
      is silent and which has no run in progress never starts a run and is
      never reported. */
  lemma {:induction false} SilenceIsNeverDetected(c: VadConfig, threshold: real, s: VadState, chunks: seq<seq<real>>)
    requires WellFormed(c) && threshold >= 0.0
    requires !s.speechDetected && forall i :: 0 <= i < |s.buffer| ==> s.buffer[i] == 0.0
    requires AllSilent(chunks)
    ensures var r := DetectAll(c, threshold, s, chunks);
      !r.0.speechDetected && forall k :: 0 <= k < |r.1| ==> r.1[k] == NotDetected
    decreases |chunks|
  {
    if chunks != [] {
      var b := Appended(c, s, chunks[0]);
      var joined := s.buffer + chunks[0];
      assert forall i :: 0 <= i < |joined| ==> joined[i] == 0.0 by {
        forall i | 0 <= i < |joined| ensures joined[i] == 0.0 {
          if i >= |s.buffer| { assert joined[i] == chunks[0][i - |s.buffer|]; }
        }
      }
      assert forall i :: 0 <= i < |b| ==> b[i] == 0.0;
      if |b| >= c.energyWindowSize {
        SilenceHasNoEnergy(b[|b| - c.energyWindowSize..]);
      }
      var first := DetectStep(c, threshold, s, chunks[0]);
      assert first == (s.(buffer := b), NotDetected);
      assert AllSilent(chunks[1..]) by {
        forall k, i | 0 <= k < |chunks[1..]| && 0 <= i < |chunks[1..][k]| ensures chunks[1..][k][i] == 0.0 {
          assert chunks[1..][k] == chunks[k + 1];
        }
      }
      SilenceIsNeverDetected(c, threshold, first.0, chunks[1..]);
    }
  }

  /** The detector object: lengths fixed at construction, a threshold that
      can be changed, and the run state. */
  class Vad {
    const sampleRate: int
    var threshold: real
    const energyWindowSize: int
    const minSpeechLength: int
    const maxBufferLength: int
    var buffer: seq<real>
    var speechSegments: seq<seq<real>>
    var speechDetected: bool

    function Config(): VadConfig
    {
      VadConfig(energyWindowSize, minSpeechLength, maxBufferLength)
    }

    function State(): VadState
      reads this
    {
      VadState(buffer, speechSegments, speechDetected)
    }

    ghost predicate Valid()
      reads this
    {
      WellFormed(Config()) && |buffer| <= maxBufferLength && RunConsistent(State())
    }

    /** Durations in seconds are converted to sample counts with `int(...)`. */
    constructor (sampleRate: int, threshold: real := 0.001, energyWindowSeconds: real := 2.0,
                 minSpeechSeconds: real := 2.0, maxBufferSeconds: real := 120.0)
      requires SecondsToSamples(energyWindowSeconds, sampleRate) > 0
      requires SecondsToSamples(maxBufferSeconds, sampleRate) > 0
      ensures Valid() && State() == Cleared
      ensures this.sampleRate == sampleRate && this.threshold == threshold
      ensures energyWindowSize == SecondsToSamples(energyWindowSeconds, sampleRate)
      ensures minSpeechLength == SecondsToSamples(minSpeechSeconds, sampleRate)
      ensures maxBufferLength == SecondsToSamples(maxBufferSeconds, sampleRate)
    {
      this.sampleRate := sampleRate;
      this.threshold := threshold;
      energyWindowSize := SecondsToSamples(energyWindowSeconds, sampleRate);
      minSpeechLength := SecondsToSamples(minSpeechSeconds, sampleRate);
      maxBufferLength := SecondsToSamples(maxBufferSeconds, sampleRate);
      new;
      Reset();
    }

    /** Changes the threshold and nothing else. */
    method UpdateThreshold(threshold: real)
      modifies this`threshold
      ensures this.threshold == threshold
    {
      this.threshold := threshold;
    }

    /** `detect(data)`: appends `data` to the rolling buffer and, once the
        buffer holds a full window, classifies its latest window by energy,
        extending the run, ending it, or leaving it alone. */
    method Detect(data: seq<real>) returns (r: Detection)
      requires Valid()
      modifies this`buffer, this`speechSegments, this`speechDetected
      ensures Valid()
      ensures (State(), r) == DetectStep(Config(), threshold, old(State()), data)
    {
      buffer := KeepLatest(buffer + data, maxBufferLength);
      if |buffer| >= energyWindowSize {
        var energyWindow := buffer[|buffer| - energyWindowSize..];
        var avgEnergy := AverageEnergy(energyWindow);
        if avgEnergy > threshold {
          speechSegments := speechSegments + [data];
          speechDetected := true;
        } else if speechDetected {
          var speechSegment := Flatten(speechSegments);
          if |speechSegment| >= minSpeechLength {
            var shiftAmount := energyWindowSize / 2;
            var startIndex := Max(0, |buffer| - |speechSegment| - shiftAmount);
            var segment := buffer[startIndex..];
            Reset();
            return Detected(segment);
          } else {
            Reset();
          }
        }
      }
      return NotDetected;
    }

    /** Empties the buffer and the run. */
    method Reset()
      modifies this`buffer, this`speechSegments, this`speechDetected
      ensures State() == Cleared
    {
      buffer := [];
      speechSegments := [];
      speechDetected := false;
    }
  }
}
