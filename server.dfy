/** The session side of src/server/src/main.py: the placeholder agent that
    answers any input with a sequence of sine tones, and the two
    module-level dictionaries that hold each session's output stream and
    agent between `connect` and `disconnect`. */
module Server {
  import opened Samples
  import opened OutputStream

  /** The tones the placeholder agent plays, in order, one second each. */
  const SineFrequencies: seq<int> := [440, 550, 660, 770, 880]

  /** The placeholder agent: it records every input chunk and, when no tone
      sequence is under way, starts one. */
  class AudioAgent {
    const outputAudioStream: OutputAudioStream
    var inputBuffer: seq<seq<real>>
    var injectionFlag: bool

    constructor (outputAudioStream: OutputAudioStream)
      ensures this.outputAudioStream == outputAudioStream
      ensures inputBuffer == [] && !injectionFlag
    {
      this.outputAudioStream := outputAudioStream;
      inputBuffer := [];
      injectionFlag := false;
    }

    /** The synchronous part of `process_input_audio`: the chunk is always
        recorded; the tone sequence is started exactly when none is under
        way, and the flag is raised before it starts. */
    method ReceiveInputAudio(audioData: seq<real>) returns (start: bool)
      modifies this`inputBuffer, this`injectionFlag
      ensures inputBuffer == old(inputBuffer) + [audioData]
      ensures start == !old(injectionFlag)
      ensures injectionFlag
    {
      inputBuffer := inputBuffer + [audioData];
      start := !injectionFlag;
      if start {
        injectionFlag := true;
      }
    }

    /** `inject_sine_waves`: each one-second tone in turn replaces the queued
        payload (a second of audio is always accepted), and the flag is
        lowered at the end. `waves[k]` stands for the tone at
        `SineFrequencies[k]`. The one-second pauses between injections are
        not modelled, so the tones are injected back to back and the last
        one is still queued, unplayed, when the flag is lowered; in the
        program the frames pulled during the final pause have by then
        played it (all but its last frame) and cleared it. */
    method InjectSineWaves(waves: seq<seq<real>>)
      requires |waves| == |SineFrequencies|
      requires forall k :: 0 <= k < |waves| ==> |waves[k]| == outputAudioStream.sampleRate
      modifies outputAudioStream`injectedAudio, outputAudioStream`injectedAudioIndex, this`injectionFlag
      ensures !injectionFlag
      ensures outputAudioStream.injectedAudio == Some(waves[4]) && outputAudioStream.injectedAudioIndex == 0
    {
      var outcome := outputAudioStream.InjectAudio(waves[0]);
      assert outcome.Pass?;
      outcome := outputAudioStream.InjectAudio(waves[1]);
      assert outcome.Pass?;
      outcome := outputAudioStream.InjectAudio(waves[2]);
      assert outcome.Pass?;
      outcome := outputAudioStream.InjectAudio(waves[3]);
      assert outcome.Pass?;
      outcome := outputAudioStream.InjectAudio(waves[4]);
      assert outcome.Pass?;
      injectionFlag := false;
    }

    /** `process_input_audio` run to completion: the chunk is recorded, and
        a tone sequence runs only when none was under way; the tones are
        needed only then. */
    method ProcessInputAudio(audioData: seq<real>, waves: seq<seq<real>>)
      requires !injectionFlag ==> |waves| == |SineFrequencies|
      requires !injectionFlag ==> forall k :: 0 <= k < |waves| ==> |waves[k]| == outputAudioStream.sampleRate
      modifies outputAudioStream`injectedAudio, outputAudioStream`injectedAudioIndex
      modifies this`inputBuffer, this`injectionFlag
      ensures inputBuffer == old(inputBuffer) + [audioData]
      ensures old(injectionFlag) ==> injectionFlag && unchanged(outputAudioStream)
      ensures !old(injectionFlag) ==>
        !injectionFlag && outputAudioStream.injectedAudio == Some(waves[4]) &&
        outputAudioStream.injectedAudioIndex == 0
    {
      var start := ReceiveInputAudio(audioData);
      if start {
        InjectSineWaves(waves);
      }
    }
  }

  /** Why `disconnect` raises. */
  datatype SessionError = KeyError

  /** The two module-level dictionaries, keyed by session id. */
  class Sessions {
    var outputAudioStreams: map<string, OutputAudioStream>
    var audioAgents: map<string, AudioAgent>

    /** Every session has both a stream and an agent, the agent plays into
        its own session's stream, and no two sessions share a stream. */
    ghost predicate Valid()
      reads this
    {
      && outputAudioStreams.Keys == audioAgents.Keys
      && (forall sid :: sid in audioAgents ==> audioAgents[sid].outputAudioStream == outputAudioStreams[sid])
      && (forall a, b :: a in outputAudioStreams && b in outputAudioStreams && a != b ==>
            outputAudioStreams[a] != outputAudioStreams[b])
    }

    constructor ()
      ensures Valid() && outputAudioStreams == map[] && audioAgents == map[]
    {
      outputAudioStreams := map[];
      audioAgents := map[];
    }

    /** `connect(sid)`: a fresh stream and a fresh agent playing into it are
        stored under `sid`, replacing any previous pair; other sessions are
        untouched. */
    method Connect(sid: string)
      requires Valid()
      modifies this
      ensures Valid()
      ensures sid in outputAudioStreams && fresh(outputAudioStreams[sid])
      ensures fresh(audioAgents[sid]) && audioAgents[sid].outputAudioStream == outputAudioStreams[sid]
      ensures outputAudioStreams[sid].State() == Initial
      ensures audioAgents[sid].inputBuffer == [] && !audioAgents[sid].injectionFlag
      ensures forall other :: other != sid && other in old(outputAudioStreams) ==>
        other in outputAudioStreams && outputAudioStreams[other] == old(outputAudioStreams)[other] &&
        audioAgents[other] == old(audioAgents)[other]
      ensures outputAudioStreams.Keys == old(outputAudioStreams.Keys) + {sid}
    {
      var stream := new OutputAudioStream();
      outputAudioStreams := outputAudioStreams[sid := stream];
      var agent := new AudioAgent(outputAudioStreams[sid]);
      audioAgents := audioAgents[sid := agent];
    }

    /** `disconnect(sid)`: removes the session from both dictionaries;
        `del` of a missing key raises `KeyError` before anything changes. */
    method Disconnect(sid: string) returns (outcome: Outcome<SessionError>)
      requires Valid()
      modifies this
      ensures Valid()
      ensures outcome.Fail? <==> sid !in old(outputAudioStreams)
      ensures outcome.Fail? ==> outputAudioStreams == old(outputAudioStreams) && audioAgents == old(audioAgents)
      ensures outcome.Pass? ==>
        outputAudioStreams == old(outputAudioStreams) - {sid} && audioAgents == old(audioAgents) - {sid}
    {
      if sid !in outputAudioStreams {
        return Fail(KeyError);
      }
      outputAudioStreams := outputAudioStreams - {sid};
      if sid !in audioAgents {
        return Fail(KeyError);
      }
      audioAgents := audioAgents - {sid};
      return Pass;
    }
  }
}
