/** The conversational agent of a session (src/server/src/agent.py).

    Input audio goes through the voice activity detector unless a turn is in
    flight. A detected segment starts a turn: it is transcribed, the text is
    added to the chat history as the user's entry, the whole history is
    answered, the answer is added as the assistant's entry, synthesised and
    queued on the session's output stream. Only a connection error of the
    HTTP client (`ClientOSError`) is caught; any other exception, including
    the `ValueError` of `inject_audio` for audio that is not a whole number
    of frames, leaves the agent with its busy flag raised for good.

    The three services are oracles: functions from their arguments to what
    the call produced. */
module Agent {
  import opened Samples
  import opened VoiceActivity
  import opened OutputStream

  datatype Role = User | Assistant

  /** A chat history entry, `{"role": ..., "content": ...}`. */
  datatype Message = Message(role: Role, content: string)

  /** What awaiting a service produced: a value, the caught connection
      error, or any other exception. */
  datatype Call<T> = Returned(value: T) | ClientOSError | OtherException

  /** `stt(segment, sample_rate)`, `llm(chat_history)`, `tts(text, sample_rate)`. */
  type Transcriber = (seq<real>, int) -> Call<string>
  type Responder = seq<Message> -> Call<string>
  type Synthesizer = (string, int) -> Call<seq<real>>

  /** The exceptions that leave a turn uncaught. */
  datatype Escape = TranscriberRaised | ResponderRaised | SynthesizerRaised | InjectRejected(error: InjectError)

  /** How a call of `process_input_audio` ends. */
  datatype TurnOutcome =
    | Busy             // a turn was in flight: the input is dropped
    | NoSpeech         // the detector reported nothing
    | Replied          // the reply was queued for playback
    | ConnectionLost   // a service raised `ClientOSError`, which is caught
    | Escaped(cause: Escape)

  /** The chat history, the output stream and the outcome after a turn. */
  datatype TurnResult = TurnResult(history: seq<Message>, stream: StreamState, outcome: TurnOutcome)

  /** What `get_status` reports. */
  datatype Status = Status(isProcessing: bool, chatHistory: seq<Message>)

  /** Why `update_settings` raises. */
  datatype SettingsError = KeyError

  /** A payload `inject_audio` accepts. */
  predicate Injectable(audio: seq<real>)
  {
    |audio| <= BufferLength && |audio| % FrameSize == 0
  }

  /** The body of the `try` block of one turn (agent.py lines 49-70). */
  function Turn(history: seq<Message>, segment: seq<real>, sampleRate: int,
                stt: Transcriber, llm: Responder, tts: Synthesizer, stream: StreamState): (r: TurnResult)
    ensures |history| <= |r.history| <= |history| + 2 && r.history[..|history|] == history
  {
    match stt(segment, sampleRate)
    case ClientOSError => TurnResult(history, stream, ConnectionLost)
    case OtherException => TurnResult(history, stream, Escaped(TranscriberRaised))
    case Returned(inputText) =>
      var asked := history + [Message(User, inputText)];
      match llm(asked)
      case ClientOSError => TurnResult(asked, stream, ConnectionLost)
      case OtherException => TurnResult(asked, stream, Escaped(ResponderRaised))
      case Returned(outputText) =>
        var answered := asked + [Message(Assistant, outputText)];
        match tts(outputText, sampleRate)
        case ClientOSError => TurnResult(answered, stream, ConnectionLost)
        case OtherException => TurnResult(answered, stream, Escaped(SynthesizerRaised))
        case Returned(audio) =>
          var injected := Inject(stream, audio);
          if injected.1.Fail? then TurnResult(answered, injected.0, Escaped(InjectRejected(injected.1.error)))
          else TurnResult(answered, injected.0, Replied)
  }

  /** A turn replies exactly when every service returns and the synthesised
      audio is a whole number of frames that fits the stream; the history
      then gains the transcription as the user's entry and the answer to the
      history including it as the assistant's entry, and the reply is queued
      from its first frame. */
  lemma RepliedExactlyWhenAllSucceed(history: seq<Message>, segment: seq<real>, sampleRate: int,
                                     stt: Transcriber, llm: Responder, tts: Synthesizer, stream: StreamState)
    ensures var r := Turn(history, segment, sampleRate, stt, llm, tts, stream);
      r.outcome == Replied <==>
        && stt(segment, sampleRate).Returned?
        && var user := Message(User, stt(segment, sampleRate).value);
           && llm(history + [user]).Returned?
           && tts(llm(history + [user]).value, sampleRate).Returned?
           && Injectable(tts(llm(history + [user]).value, sampleRate).value)
    ensures var r := Turn(history, segment, sampleRate, stt, llm, tts, stream);
      r.outcome == Replied ==>
        var user := Message(User, stt(segment, sampleRate).value);
        var reply := llm(history + [user]).value;
        && r.history == history + [user, Message(Assistant, reply)]
        && r.stream == stream.(injectedAudio := Some(tts(reply, sampleRate).value), injectedAudioIndex := 0)
  {
  }

  /** A transcription that fails adds nothing to the history; an answer
      that fails leaves only the user's entry; neither touches the stream. */
  lemma FailedCallsAppendLess(history: seq<Message>, segment: seq<real>, sampleRate: int,
                              stt: Transcriber, llm: Responder, tts: Synthesizer, stream: StreamState)
    ensures var r := Turn(history, segment, sampleRate, stt, llm, tts, stream);
      !stt(segment, sampleRate).Returned? ==> r.history == history && r.stream == stream
    ensures var r := Turn(history, segment, sampleRate, stt, llm, tts, stream);
      stt(segment, sampleRate).Returned? ==>
        var user := Message(User, stt(segment, sampleRate).value);
        !llm(history + [user]).Returned? ==> r.history == history + [user] && r.stream == stream
  {
  }

  /** When no service raises anything but `ClientOSError` and every reply
      the synthesiser can return is injectable, no exception escapes. */
  lemma RecoversFromConnectionErrors(history: seq<Message>, segment: seq<real>, sampleRate: int,
                                     stt: Transcriber, llm: Responder, tts: Synthesizer, stream: StreamState)
    requires !stt(segment, sampleRate).OtherException?
    requires forall h :: !llm(h).OtherException?
    requires forall text :: !tts(text, sampleRate).OtherException?
    requires forall text :: tts(text, sampleRate).Returned? ==> Injectable(tts(text, sampleRate).value)
    ensures !Turn(history, segment, sampleRate, stt, llm, tts, stream).outcome.Escaped?
  {
  }

  /** A synthesised reply that is not a whole number of frames makes
      `inject_audio` raise: the turn escapes with both entries appended and
      nothing queued. */
  lemma UnalignedReplyEscapes(history: seq<Message>, segment: seq<real>, sampleRate: int,
                              stt: Transcriber, llm: Responder, tts: Synthesizer, stream: StreamState)
    requires stt(segment, sampleRate).Returned?
    requires llm(history + [Message(User, stt(segment, sampleRate).value)]).Returned?
    requires var reply := llm(history + [Message(User, stt(segment, sampleRate).value)]).value;
      tts(reply, sampleRate).Returned? &&
      |tts(reply, sampleRate).value| <= BufferLength && |tts(reply, sampleRate).value| % FrameSize != 0
    ensures var r := Turn(history, segment, sampleRate, stt, llm, tts, stream);
      r.outcome == Escaped(InjectRejected(NotFrameMultiple)) && |r.history| == |history| + 2 && r.stream == stream
  {
  }

  /** The corrected injection step: the reply audio zero-padded to a whole
      number of frames, the only lengths `inject_audio` accepts. */
  function PadToFrames(audio: seq<real>): (padded: seq<real>)
    ensures |padded| % FrameSize == 0
    ensures |audio| <= |padded| < |audio| + FrameSize
    ensures padded[..|audio|] == audio
    ensures forall i :: |audio| <= i < |padded| ==> padded[i] == 0.0
  {
    audio + Zeros((FrameSize - |audio| % FrameSize) % FrameSize)
  }

  /** A padded reply no longer than the stream's buffer is always accepted:
      queued in full, its cursor at the first frame. */
  lemma PaddedReplyIsAccepted(stream: StreamState, audio: seq<real>)
    requires |audio| <= BufferLength
    ensures var r := Inject(stream, PadToFrames(audio));
      r.1 == Pass && r.0.injectedAudio == Some(PadToFrames(audio)) && r.0.injectedAudioIndex == 0
  {
    var padded := PadToFrames(audio);
    assert |padded| <= BufferLength by {
      var k := |audio| / FrameSize;
      if |audio| % FrameSize != 0 {
        assert k * FrameSize < |audio| <= BufferLength;
        assert k < NFrames;
        assert |padded| == (k + 1) * FrameSize;
      }
    }
  }

  /** The agent of one session. */
  class AudioAgent {
    const sid: string
    const outputAudioStream: OutputAudioStream
    const sampleRate: int
    const frameSize: int
    const vad: Vad
    var isProcessing: bool
    var chatHistory: seq<Message>

    ghost predicate Valid()
      reads this, vad, outputAudioStream
    {
      vad.Valid() && OutputStream.Valid(outputAudioStream.State()) &&
      sampleRate == outputAudioStream.sampleRate && frameSize == outputAudioStream.frameSize
    }

    /** A new agent has a detector with the default settings at the
        stream's sample rate, no turn in flight and an empty history. */
    constructor (sid: string, outputAudioStream: OutputAudioStream)
      requires OutputStream.Valid(outputAudioStream.State())
      ensures Valid() && fresh(vad)
      ensures this.sid == sid && this.outputAudioStream == outputAudioStream
      ensures vad.State() == Cleared && vad.threshold == 0.001 && vad.sampleRate == SampleRate
      ensures vad.Config() == VadConfig(16000, 16000, 960000)
      ensures !isProcessing && chatHistory == []
    {
      this.sid := sid;
      this.outputAudioStream := outputAudioStream;
      sampleRate := outputAudioStream.sampleRate;
      frameSize := outputAudioStream.frameSize;
      assert SecondsToSamples(2.0, SampleRate) == 16000 by {
        assert 2.0 * SampleRate as real == 16000.0;
      }
      assert SecondsToSamples(120.0, SampleRate) == 960000 by {
        assert 120.0 * SampleRate as real == 960000.0;
      }
      vad := new Vad(outputAudioStream.sampleRate);
      isProcessing := false;
      chatHistory := [];
    }

    /** The busy flag and the history, read and nothing changed. */
    method GetStatus() returns (status: Status)
      ensures status.isProcessing == isProcessing && status.chatHistory == chatHistory
    {
      return Status(isProcessing, chatHistory);
    }

    /** `settings["threshold"]` goes to the detector; without that key the
        lookup raises `KeyError` and nothing changes. */
    method UpdateSettings(settings: map<string, real>) returns (outcome: Outcome<SettingsError>)
      requires Valid()
      modifies vad`threshold
      ensures Valid()
      ensures outcome.Fail? <==> "threshold" !in settings
      ensures outcome.Pass? ==> vad.threshold == settings["threshold"]
      ensures outcome.Fail? ==> vad.threshold == old(vad.threshold)
    {
      if "threshold" !in settings {
        return Fail(KeyError);
      }
      var threshold := settings["threshold"];
      vad.UpdateThreshold(threshold);
      return Pass;
    }

    /** One call of `process_input_audio`. While a turn is in flight the
        input is dropped and nothing changes. Otherwise the detector sees the
        input; without a detection that is all, and with one the busy flag
        is raised and the turn runs on the detected segment. */
    method ProcessInputAudio(audioData: seq<real>, stt: Transcriber, llm: Responder, tts: Synthesizer)
      returns (outcome: TurnOutcome)
      requires Valid()
      modifies this`isProcessing, this`chatHistory
      modifies vad`buffer, vad`speechSegments, vad`speechDetected
      modifies outputAudioStream`injectedAudio, outputAudioStream`injectedAudioIndex
      ensures Valid()
      ensures old(isProcessing) ==>
        outcome == Busy && isProcessing && chatHistory == old(chatHistory) &&
        unchanged(vad) && unchanged(outputAudioStream)
      ensures !old(isProcessing) ==>
        var step := DetectStep(vad.Config(), vad.threshold, old(vad.State()), audioData);
        && vad.State() == step.0
        && (step.1 == NotDetected ==>
              outcome == NoSpeech && !isProcessing && chatHistory == old(chatHistory) && unchanged(outputAudioStream))
        && (step.1.Detected? ==>
              var r := Turn(old(chatHistory), step.1.segment, sampleRate, stt, llm, tts, old(outputAudioStream.State()));
              outcome == r.outcome && chatHistory == r.history && outputAudioStream.State() == r.stream &&
              isProcessing == r.outcome.Escaped?)
    {
      if isProcessing {
        return Busy;
      }
      var result := vad.Detect(audioData);
      if result.Detected? {
        isProcessing := true;
        var segment := result.segment;
        outcome := RunTurn(segment, stt, llm, tts);
      } else {
        outcome := NoSpeech;
      }
    }

    /** The turn proper (agent.py lines 49-75), entered with the busy flag
        raised. Each step is awaited in turn; `ClientOSError` skips the rest
        and lowers the flag, any other exception leaves it raised. */
    method RunTurn(segment: seq<real>, stt: Transcriber, llm: Responder, tts: Synthesizer)
      returns (outcome: TurnOutcome)
      requires Valid() && isProcessing
      modifies this`isProcessing, this`chatHistory
      modifies outputAudioStream`injectedAudio, outputAudioStream`injectedAudioIndex
      ensures Valid()
      ensures var r := Turn(old(chatHistory), segment, sampleRate, stt, llm, tts, old(outputAudioStream.State()));
        outcome == r.outcome && chatHistory == r.history && outputAudioStream.State() == r.stream
      ensures isProcessing == outcome.Escaped?
    {
      var inputText := stt(segment, sampleRate);
      if inputText.ClientOSError? {
        isProcessing := false;
        return ConnectionLost;
      } else if inputText.OtherException? {
        return Escaped(TranscriberRaised);
      }
      chatHistory := chatHistory + [Message(User, inputText.value)];

      var outputText := llm(chatHistory);
      if outputText.ClientOSError? {
        isProcessing := false;
        return ConnectionLost;
      } else if outputText.OtherException? {
        return Escaped(ResponderRaised);
      }
      chatHistory := chatHistory + [Message(Assistant, outputText.value)];

      var outputAudioData := tts(outputText.value, sampleRate);
      if outputAudioData.ClientOSError? {
        isProcessing := false;
        return ConnectionLost;
      } else if outputAudioData.OtherException? {
        return Escaped(SynthesizerRaised);
      }

      var injected := outputAudioStream.InjectAudio(outputAudioData.value);
      if injected.Fail? {
        return Escaped(InjectRejected(injected.error));
      }
      isProcessing := false;
      return Replied;
    }
  }
}
