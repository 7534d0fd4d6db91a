/** The outgoing frame source of a session (`OutputAudioStream` in
    src/server/src/main.py).

    Every pull hands out one frame of `FrameSize` samples: the frame of a
    cyclic, all-zero background at `currentIndex`, with the next frame of the
    injected payload, if any, added to it. A payload is accepted only when it
    fits the background and is a whole number of frames; a new payload
    replaces the queued one. As written, a frame of the payload is played
    only while it is not the last one, so the final frame is never heard
    (see `LastFrameNeverPlayed` and the corrected `NextFrameIntended`). */
module OutputStream {
  import opened Samples

  const SampleRate: int := 8000
  const FrameDuration: real := 0.1
  /** `int(sample_rate * frame_duration)`, see `FrameGeometry`. */
  const FrameSize: int := 800
  const NFrames: int := 100
  const BufferLength: int := NFrames * FrameSize
  /** The background track: `n_frames` frames of silence. */
  const Background: seq<real> := Zeros(BufferLength)

  /** The frame size is the frame duration converted to samples, and the
      background is silent and exactly `NFrames` frames long. */
  lemma FrameGeometry()
    ensures SecondsToSamples(FrameDuration, SampleRate) == FrameSize
    ensures BufferLength == 80000 && |Background| == BufferLength
    ensures forall i :: 0 <= i < |Background| ==> Background[i] == 0.0
  {
    assert FrameDuration * SampleRate as real == 800.0;
  }

  /** Why `inject_audio` raises `ValueError`. */
  datatype InjectError = LongerThanBuffer | NotFrameMultiple

  /** The mutable part of the stream: the cyclic background position, the
      queued payload (`None` when nothing is queued) and its read cursor in
      frames. */
  datatype StreamState = StreamState(currentIndex: int, injectedAudio: Option<seq<real>>, injectedAudioIndex: nat)

  /** The state of a freshly constructed stream. */
  const Initial: StreamState := StreamState(0, None, 0)

  /** The background position is a frame of the background, and the read
      cursor never runs past the end of the queued payload. */
  predicate Valid(s: StreamState)
  {
    && 0 <= s.currentIndex < NFrames
    && (s.injectedAudio.Some? ==> s.injectedAudioIndex * FrameSize <= |s.injectedAudio.value|)
  }

  /** `frame += inject_frame`: element-wise sum of two frames. */
  function Mix(frame: seq<real>, inject: seq<real>): (r: seq<real>)
    requires |frame| == |inject|
  {
    seq(|frame|, i requires 0 <= i < |frame| => frame[i] + inject[i])
  }

  /** Adding a frame to silence leaves the frame as it is. */
  lemma MixOntoSilence(frame: seq<real>, inject: seq<real>)
    requires |frame| == |inject|
    requires forall i :: 0 <= i < |frame| ==> frame[i] == 0.0
    ensures Mix(frame, inject) == inject
  {
  }

  /** Every sample of the frame is zero. */
  predicate Silent(frame: seq<real>)
  {
    forall j :: 0 <= j < |frame| ==> frame[j] == 0.0
  }

  /** Frame `k` of a payload. */
  function FrameOf(audio: seq<real>, k: nat): seq<real>
    requires (k + 1) * FrameSize <= |audio|
  {
    audio[k * FrameSize..(k + 1) * FrameSize]
  }

  /** The background frame at position `i`. */
  function BackgroundFrame(i: int): (frame: seq<real>)
    requires 0 <= i < NFrames
    ensures |frame| == FrameSize
    ensures forall j :: 0 <= j < FrameSize ==> frame[j] == 0.0
  {
    Background[i * FrameSize..(i + 1) * FrameSize]
  }

  /** The background position after one pull. */
  function NextIndex(i: int): int
  {
    if i + 1 >= NFrames then 0 else i + 1
  }

  /** One call of `get_audio_frame()`, as written: the new state and the
      frame handed out. The payload frame at the cursor is mixed in only
      when a further frame follows it in the payload. */
  function NextFrame(s: StreamState): (r: (StreamState, seq<real>))
    requires Valid(s)
    ensures Valid(r.0) && |r.1| == FrameSize
    ensures r.0.currentIndex == (s.currentIndex + 1) % NFrames
  {
    var frame := BackgroundFrame(s.currentIndex);
    var next := NextIndex(s.currentIndex);
    match s.injectedAudio
    case None => (s.(currentIndex := next), frame)
    case Some(audio) =>
      if (s.injectedAudioIndex + 1) * FrameSize < |audio| then
        var injectFrame := FrameOf(audio, s.injectedAudioIndex);
        (StreamState(next, s.injectedAudio, s.injectedAudioIndex + 1), Mix(frame, injectFrame))
      else
        (StreamState(next, None, s.injectedAudioIndex), frame)
  }

  /** With nothing queued a pull is silence and the queue stays empty. */
  lemma IdlePullIsSilence(s: StreamState)
    requires Valid(s) && s.injectedAudio.None?
    ensures var r := NextFrame(s);
      r.0.injectedAudio.None? && r.0.injectedAudioIndex == s.injectedAudioIndex &&
      Silent(r.1)
  {
  }

  /** A pull either plays the payload frame at the cursor, exactly and
      advancing the cursor, or hands out silence and drops the payload. */
  lemma PullPlaysOrClears(s: StreamState)
    requires Valid(s) && s.injectedAudio.Some?
    ensures var audio := s.injectedAudio.value; var r := NextFrame(s);
      if (s.injectedAudioIndex + 1) * FrameSize < |audio| then
        r.1 == FrameOf(audio, s.injectedAudioIndex) &&
        r.0.injectedAudio == s.injectedAudio && r.0.injectedAudioIndex == s.injectedAudioIndex + 1
      else
        r.0.injectedAudio.None? && Silent(r.1)
  {
    var audio := s.injectedAudio.value;
    if (s.injectedAudioIndex + 1) * FrameSize < |audio| {
      MixOntoSilence(BackgroundFrame(s.currentIndex), FrameOf(audio, s.injectedAudioIndex));
    }
  }

  /** One call of `inject_audio(audio)`: a payload longer than the
      background, or not a whole number of frames, is refused and nothing
      changes; otherwise it replaces whatever was queued and the cursor goes
      back to its first frame. */
  function Inject(s: StreamState, audio: seq<real>): (r: (StreamState, Outcome<InjectError>))
    ensures r.1 == Fail(LongerThanBuffer) <==> |audio| > BufferLength
    ensures r.1 == Fail(NotFrameMultiple) <==> |audio| <= BufferLength && |audio| % FrameSize != 0
    ensures r.1.Fail? ==> r.0 == s
    ensures r.1.Pass? ==> r.0.currentIndex == s.currentIndex && r.0.injectedAudio == Some(audio) && r.0.injectedAudioIndex == 0
    ensures Valid(s) ==> Valid(r.0)
  {
    if |audio| > BufferLength then (s, Fail(LongerThanBuffer))
    else if |audio| % FrameSize != 0 then (s, Fail(NotFrameMultiple))
    else (s.(injectedAudio := Some(audio), injectedAudioIndex := 0), Pass)
  }

  /** Last writer wins: an accepted payload discards the one queued before
      it, whatever had been played of it. */
  lemma LastWriterWins(s: StreamState, first: seq<real>, second: seq<real>)
    requires Inject(s, second).1.Pass?
    ensures Inject(Inject(s, first).0, second) == Inject(s, second)
  {
  }

  /** `n` pulls in a row: the final state and the frames, in order. */
  function Pulls(s: StreamState, n: nat): (r: (StreamState, seq<seq<real>>))
    requires Valid(s)
    ensures Valid(r.0) && |r.1| == n
    ensures forall k :: 0 <= k < n ==> |r.1[k]| == FrameSize
    decreases n
  {
    if n == 0 then (s, [])
    else
      var first := NextFrame(s);
      var rest := Pulls(first.0, n - 1);
      (rest.0, [first.1] + rest.1)
  }

  /** While a further payload frame follows the cursor, pulls play the
      payload frames one after the other, none skipped or repeated. */
  lemma {:induction false} PullsPlayInOrder(s: StreamState, n: nat)
    requires Valid(s) && s.injectedAudio.Some?
    requires (s.injectedAudioIndex + n + 1) * FrameSize <= |s.injectedAudio.value|
    ensures var r := Pulls(s, n);
      && r.0.injectedAudio == s.injectedAudio
      && r.0.injectedAudioIndex == s.injectedAudioIndex + n
      && forall k :: 0 <= k < n ==> r.1[k] == FrameOf(s.injectedAudio.value, s.injectedAudioIndex + k)
    decreases n
  {
    if n > 0 {
      var audio := s.injectedAudio.value;
      PullPlaysOrClears(s);
      var first := NextFrame(s);
      PullsPlayInOrder(first.0, n - 1);
      var rest := Pulls(first.0, n - 1);
      assert Pulls(s, n).1 == [first.1] + rest.1;
      forall k | 0 <= k < n
        ensures Pulls(s, n).1[k] == FrameOf(audio, s.injectedAudioIndex + k)
      {
        if k > 0 {
          assert Pulls(s, n).1[k] == rest.1[k - 1];
        }
      }
    }
  }

  /** An accepted payload of `k` frames is heard as its first `k - 1`
      frames, in order; the next pull is silence and drops the payload. */
  lemma {:induction false} PayloadPlaysAllButLastFrame(s: StreamState, audio: seq<real>, k: nat)
    requires Valid(s) && k >= 1 && |audio| == k * FrameSize
    requires Inject(s, audio).1.Pass?
    ensures var r := Pulls(Inject(s, audio).0, k);
      && (forall i :: 0 <= i < k - 1 ==> r.1[i] == FrameOf(audio, i))
      && Silent(r.1[k - 1])
      && r.0.injectedAudio.None?
  {
    var s0 := Inject(s, audio).0;
    PullsPlayInOrder(s0, k - 1);
    PullsThenOne(s0, k - 1);
    var mid := Pulls(s0, k - 1);
    PullPlaysOrClears(mid.0);
  }

  /** Splitting off the last of `n + 1` pulls. */
  lemma {:induction false} PullsThenOne(s: StreamState, n: nat)
    requires Valid(s)
    ensures var mid := Pulls(s, n); var last := NextFrame(mid.0);
      Pulls(s, n + 1) == (last.0, mid.1 + [last.1])
    decreases n
  {
    var first := NextFrame(s);
    if n == 0 {
      assert Pulls(first.0, 0).1 == [];
      assert [first.1] + [] == [] + [first.1];
    } else {
      PullsThenOne(first.0, n - 1);
      var mid := Pulls(first.0, n - 1);
      var last := NextFrame(mid.0);
      assert [first.1] + (mid.1 + [last.1]) == ([first.1] + mid.1) + [last.1];
    }
  }

  /** As written, a payload of exactly one frame is never heard: the first
      pull after it is accepted is silence and drops it. */
  lemma LastFrameNeverPlayed(s: StreamState, audio: seq<real>)
    requires Valid(s) && |audio| == FrameSize
    ensures Inject(s, audio).1.Pass?
    ensures var r := NextFrame(Inject(s, audio).0);
      r.0.injectedAudio.None? && Silent(r.1)
  {
  }

  /** `get_audio_frame()` with the corrected comparison (`<=`): the payload
      frame at the cursor is played whenever it lies wholly inside the
      payload, as the whole-frame demand of `inject_audio` implies. */
  function NextFrameIntended(s: StreamState): (r: (StreamState, seq<real>))
    requires Valid(s)
    ensures Valid(r.0) && |r.1| == FrameSize
    ensures r.0.currentIndex == (s.currentIndex + 1) % NFrames
  {
    var frame := BackgroundFrame(s.currentIndex);
    var next := NextIndex(s.currentIndex);
    match s.injectedAudio
    case None => (s.(currentIndex := next), frame)
    case Some(audio) =>
      if (s.injectedAudioIndex + 1) * FrameSize <= |audio| then
        var injectFrame := FrameOf(audio, s.injectedAudioIndex);
        (StreamState(next, s.injectedAudio, s.injectedAudioIndex + 1), Mix(frame, injectFrame))
      else
        (StreamState(next, None, s.injectedAudioIndex), frame)
  }

  /** `n` corrected pulls in a row. */
  function PullsIntended(s: StreamState, n: nat): (r: (StreamState, seq<seq<real>>))
    requires Valid(s)
    ensures Valid(r.0) && |r.1| == n
    decreases n
  {
    if n == 0 then (s, [])
    else
      var first := NextFrameIntended(s);
      var rest := PullsIntended(first.0, n - 1);
      (rest.0, [first.1] + rest.1)
  }

  /** With the corrected comparison, pulls play every remaining payload
      frame in order, the last one included. */
  lemma {:induction false} IntendedPullsPlayInOrder(s: StreamState, n: nat)
    requires Valid(s) && s.injectedAudio.Some?
    requires (s.injectedAudioIndex + n) * FrameSize <= |s.injectedAudio.value|
    ensures var r := PullsIntended(s, n);
      && r.0.injectedAudio == s.injectedAudio
      && r.0.injectedAudioIndex == s.injectedAudioIndex + n
      && forall k :: 0 <= k < n ==> r.1[k] == FrameOf(s.injectedAudio.value, s.injectedAudioIndex + k)
    decreases n
  {
    if n > 0 {
      var audio := s.injectedAudio.value;
      var first := NextFrameIntended(s);
      MixOntoSilence(BackgroundFrame(s.currentIndex), FrameOf(audio, s.injectedAudioIndex));
      IntendedPullsPlayInOrder(first.0, n - 1);
      var rest := PullsIntended(first.0, n - 1);
      forall k | 0 <= k < n
        ensures PullsIntended(s, n).1[k] == FrameOf(audio, s.injectedAudioIndex + k)
      {
        if k > 0 {
          assert PullsIntended(s, n).1[k] == rest.1[k - 1];
        }
      }
    }
  }

  /** With the corrected comparison an accepted payload of `k` frames is
      heard in full and in order, and the pull after it drops the payload. */
  lemma {:induction false} IntendedPlaysEveryFrame(s: StreamState, audio: seq<real>, k: nat)
    requires Valid(s) && |audio| == k * FrameSize
    requires Inject(s, audio).1.Pass?
    ensures var r := PullsIntended(Inject(s, audio).0, k);
      && (forall i :: 0 <= i < k ==> r.1[i] == FrameOf(audio, i))
      && r.0.injectedAudio == Some(audio) && r.0.injectedAudioIndex == k
      && NextFrameIntended(r.0).0.injectedAudio.None?
  {
    IntendedPullsPlayInOrder(Inject(s, audio).0, k);
  }

  /** The stream object. The constants are fixed at construction; the
      background position, the queued payload and its cursor change. */
  class OutputAudioStream {
    const sampleRate: int := SampleRate
    const frameDuration: real := FrameDuration
    const frameSize: int := FrameSize
    const nFrames: int := NFrames
    const bufferLength: int := BufferLength
    const backgroundAudio: seq<real> := Background
    var currentIndex: int
    var injectedAudio: Option<seq<real>>
    var injectedAudioIndex: nat

    function State(): StreamState
      reads this
    {
      StreamState(currentIndex, injectedAudio, injectedAudioIndex)
    }

    /** A fresh stream sits at the first background frame with nothing
        queued. */
    constructor ()
      ensures State() == Initial && Valid(State())
    {
      currentIndex := 0;
      injectedAudio := None;
      injectedAudioIndex := 0;
    }

    /** Hands out the next frame and advances the background position and,
        when a payload frame is mixed in, the cursor. */
    method GetAudioFrame() returns (frame: seq<real>)
      requires Valid(State())
      modifies this`currentIndex, this`injectedAudio, this`injectedAudioIndex
      ensures Valid(State())
      ensures (State(), frame) == NextFrame(old(State()))
    {
      frame := backgroundAudio[currentIndex * frameSize..(currentIndex + 1) * frameSize];
      if injectedAudio.Some? {
        if (injectedAudioIndex + 1) * frameSize < |injectedAudio.value| {
          var injectFrame := injectedAudio.value[injectedAudioIndex * frameSize..(injectedAudioIndex + 1) * frameSize];
          injectedAudioIndex := injectedAudioIndex + 1;
          frame := Mix(frame, injectFrame);
        } else {
          injectedAudio := None;
        }
      }
      currentIndex := currentIndex + 1;
      if currentIndex >= nFrames {
        currentIndex := 0;
      }
    }

    /** Queues `audioData` for playback, or refuses it (`ValueError`) and
        changes nothing. */
    method InjectAudio(audioData: seq<real>) returns (outcome: Outcome<InjectError>)
      modifies this`injectedAudio, this`injectedAudioIndex
      ensures (State(), outcome) == Inject(old(State()), audioData)
    {
      var totalLength := |audioData|;
      if totalLength > bufferLength {
        return Fail(LongerThanBuffer);
      }
      if totalLength % frameSize != 0 {
        return Fail(NotFrameMultiple);
      }
      injectedAudio := Some(audioData);
      injectedAudioIndex := 0;
      return Pass;
    }
  }
}
