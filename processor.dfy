/** The browser's playback buffer (`AudioProcessor` in
    src/client/public/processor.js).

    Audio from the server is appended to a buffer. Playback starts once a
    second of audio (`highThreshold` samples) is buffered and stops when less
    than half a second (`lowThreshold`) is left; while playing, every render
    call copies the front of the buffer into the output channel, filling
    with zeros past its end, and drops what it copied. */
module Processor {
  import opened Samples

  const SampleRate: int := 8000
  /** One second of samples. */
  const HighThreshold: int := SampleRate
  /** Half a second of samples; `sampleRate / 2` is exact because the rate
      is even. */
  const LowThreshold: int := SampleRate / 2

  /** Playback stops strictly before it would restart. */
  lemma ThresholdsOrdered()
    ensures 0 < LowThreshold < HighThreshold
    ensures HighThreshold == 8000 && LowThreshold == 4000
  {
  }

  /** `event.data` of a port message. */
  datatype PortMessage = PortMessage(message: string, audioData: seq<real>)

  /** The buffered samples and whether playback is on. */
  datatype PlayerState = PlayerState(buffer: seq<real>, playbackStarted: bool)

  /** The state of a freshly constructed processor. */
  const Initial: PlayerState := PlayerState([], false)

  /** `port.onmessage`: an `audioData` message appends its samples; any
      other message changes nothing. */
  function Receive(s: PlayerState, m: PortMessage): (r: PlayerState)
    ensures r.playbackStarted == s.playbackStarted
    ensures m.message == "audioData" ==> r.buffer == s.buffer + m.audioData
    ensures m.message != "audioData" ==> r == s
  {
    if m.message == "audioData" then s.(buffer := s.buffer + m.audioData) else s
  }

  /** What a render call writes into a channel of `n` samples: the front of
      the buffer, then zeros. */
  function ChannelFrom(buffer: seq<real>, n: nat): (channel: seq<real>)
    ensures |channel| == n
    ensures channel == buffer[..Min(n, |buffer|)] + Zeros(n - Min(n, |buffer|))
  {
    seq(n, i requires 0 <= i < n => if i < |buffer| then buffer[i] else 0.0)
  }

  /** One call of `process` on a channel of `n` samples: the new state and,
      when the channel is written, what it holds. */
  function ProcessStep(s: PlayerState, n: nat): (r: (PlayerState, Option<seq<real>>))
    ensures |r.0.buffer| <= |s.buffer|
    ensures r.0.buffer == s.buffer[|s.buffer| - |r.0.buffer|..]
  {
    var bufferLength := |s.buffer|;
    if s.playbackStarted then
      if bufferLength < LowThreshold then (s.(playbackStarted := false), None)
      else (s.(buffer := s.buffer[Min(n, bufferLength)..]), Some(ChannelFrom(s.buffer, n)))
    else if bufferLength >= HighThreshold then (s.(playbackStarted := true), None)
    else (s, None)
  }

  /** Before playback starts nothing is written or consumed, and playback
      starts exactly when a second of audio is buffered. */
  lemma WaitingConsumesNothing(s: PlayerState, n: nat)
    requires !s.playbackStarted
    ensures var r := ProcessStep(s, n);
      r.1.None? && r.0.buffer == s.buffer && (r.0.playbackStarted <==> |s.buffer| >= HighThreshold)
  {
  }

  /** During playback, less than half a second of audio stops it without
      writing or consuming anything. */
  lemma StarvedPlaybackStops(s: PlayerState, n: nat)
    requires s.playbackStarted && |s.buffer| < LowThreshold
    ensures ProcessStep(s, n) == (PlayerState(s.buffer, false), None)
  {
  }

  /** Otherwise the channel gets the front of the buffer, zero-filled past
      its end, and exactly those samples leave the buffer. */
  lemma PlayingCopiesAndDrops(s: PlayerState, n: nat)
    requires s.playbackStarted && |s.buffer| >= LowThreshold
    ensures var r := ProcessStep(s, n);
      && r.0.playbackStarted
      && r.1.Some? && |r.1.value| == n
      && (forall i :: 0 <= i < n ==> r.1.value[i] == if i < |s.buffer| then s.buffer[i] else 0.0)
      && s.buffer == s.buffer[..|s.buffer| - |r.0.buffer|] + r.0.buffer
      && |s.buffer| - |r.0.buffer| == Min(n, |s.buffer|)
  {
  }

  /** With channels no longer than the low threshold, a written channel is
      made of buffered samples only: playback never pads with zeros. */
  lemma ShortChannelsAreNeverPadded(s: PlayerState, n: nat)
    requires n <= LowThreshold
    ensures var r := ProcessStep(s, n);
      r.1.Some? ==> r.1.value == s.buffer[..n] && r.0.buffer == s.buffer[n..]
  {
  }

  /** What happens to the processor: a port message or a render call on a
      channel of `frames` samples. */
  datatype Event = Message(msg: PortMessage) | Render(frames: nat)

  /** The samples an event delivers: those of an `audioData` message. */
  function Delivered(e: Event): seq<real>
  {
    match e
    case Message(m) => if m.message == "audioData" then m.audioData else []
    case Render(_) => []
  }

  /** The state after one event. */
  function After(s: PlayerState, e: Event): PlayerState
  {
    match e
    case Message(m) => Receive(s, m)
    case Render(n) => ProcessStep(s, n).0
  }

  /** The samples one event takes out of the buffer: the front that a
      render call drops. */
  function Taken(s: PlayerState, e: Event): seq<real>
  {
    match e
    case Message(_) => []
    case Render(n) => s.buffer[..|s.buffer| - |ProcessStep(s, n).0.buffer|]
  }

  /** One event neither loses nor duplicates a sample: what it takes out
      followed by what it leaves is what was there followed by what it
      delivers. */
  lemma OneEventConserves(s: PlayerState, e: Event)
    ensures Taken(s, e) + After(s, e).buffer == s.buffer + Delivered(e)
  {
    match e
    case Message(m) =>
      assert Taken(s, e) == [];
    case Render(n) =>
      assert Delivered(e) == [];
  }

  /** The samples the messages among `events` deliver, in order. */
  function Received(events: seq<Event>): seq<real>
    decreases |events|
  {
    if events == [] then [] else Delivered(events[0]) + Received(events[1..])
  }

  /** The state after `events`, and the samples taken out of the buffer by
      render calls, in order. */
  function Run(s: PlayerState, events: seq<Event>): (r: (PlayerState, seq<real>))
    decreases |events|
  {
    if events == [] then (s, [])
    else
      var rest := Run(After(s, events[0]), events[1..]);
      (rest.0, Taken(s, events[0]) + rest.1)
  }

  /** Samples leave the buffer only from its front and in order: across any
      run, the samples taken out followed by those still buffered are the
      samples buffered at the start followed by all those received, so none
      is skipped or taken twice. */
  lemma {:induction false} NoSampleSkippedOrRepeated(s: PlayerState, events: seq<Event>)
    ensures var r := Run(s, events); r.1 + r.0.buffer == s.buffer + Received(events)
    decreases |events|
  {
    if events != [] {
      var e, tail := events[0], events[1..];
      var next := After(s, e);
      var rest := Run(next, tail);
      NoSampleSkippedOrRepeated(next, tail);
      OneEventConserves(s, e);
      Regroup(Taken(s, e), rest.1, rest.0.buffer, next.buffer, Received(tail), s.buffer, Delivered(e));
    }
  }

  /** Chaining two conservation facts: if `taken + left == had + got` and
      `taken' + left' == left + got'`, then `(taken + taken') + left' ==
      had + (got + got')`. */
  lemma Regroup(taken: seq<real>, taken': seq<real>, left': seq<real>, left: seq<real>,
                got': seq<real>, had: seq<real>, got: seq<real>)
    requires taken' + left' == left + got'
    requires taken + left == had + got
    ensures (taken + taken') + left' == had + (got + got')
  {
    calc {
      (taken + taken') + left';
      taken + (taken' + left');
      taken + (left + got');
      (taken + left) + got';
      (had + got) + got';
      had + (got + got');
    }
  }

  /** The audio worklet processor. */
  class AudioProcessor {
    var buffer: seq<real>
    var playbackStarted: bool
    const sampleRate: int := SampleRate
    const highThreshold: int := HighThreshold
    const lowThreshold: int := LowThreshold

    function State(): PlayerState
      reads this
    {
      PlayerState(buffer, playbackStarted)
    }

    constructor ()
      ensures State() == Initial
    {
      buffer := [];
      playbackStarted := false;
    }

    /** The `port.onmessage` handler. */
    method OnMessage(m: PortMessage)
      modifies this`buffer
      ensures State() == Receive(old(State()), m)
    {
      if m.message == "audioData" {
        buffer := buffer + m.audioData;
      }
    }

    /** `process`: moves the playback state, writes `channel` in place when
        playing and always asks to be kept alive. */
    method Process(channel: array<real>) returns (keepAlive: bool)
      modifies this`buffer, this`playbackStarted, channel
      ensures keepAlive
      ensures var r := ProcessStep(old(State()), channel.Length);
        && State() == r.0
        && (r.1.Some? ==> channel[..] == r.1.value)
        && (r.1.None? ==> channel[..] == old(channel[..]))
    {
      var bufferLength := |buffer|;
      if playbackStarted {
        if bufferLength < lowThreshold {
          playbackStarted := false;
        } else {
          for i := 0 to channel.Length
            modifies channel
            invariant forall k :: 0 <= k < i ==> channel[k] == if k < bufferLength then buffer[k] else 0.0
          {
            channel[i] := if i < bufferLength then buffer[i] else 0.0;
          }
          buffer := buffer[Min(channel.Length, bufferLength)..];
        }
      } else {
        if bufferLength >= highThreshold {
          playbackStarted := true;
        }
      }
      return true;
    }
  }
}
