# teehetki audio pipeline — a verified model

This project models the core of the teehetki voice-chat pipeline in Dafny:

- **Voice activity detector** (`VAD`, module `VoiceActivity`, `vad.dfy`). It keeps
  a rolling buffer of the latest samples, bounded in length, and the chunks of the
  current speech run. Each incoming chunk is classified by the average energy of the
  latest window. When a run of at least the minimum length ends, it reports a
  segment: the run plus half a window of leading context, taken from the end of the
  buffer.
- **Output audio stream** (`OutputAudioStream`, module `OutputStream`,
  `output_stream.dfy`). This is the per-session frame source that the server pulls
  every 100 ms. It mixes a queued payload, frame by frame, onto a silent cyclic
  background. It accepts a payload only when the payload fits the background and is
  a whole number of frames.
- **Session server** (module `Server`, `server.dfy`). It holds the placeholder
  agent, which answers input with five one-second tones while no tone sequence is
  under way. It also holds the two session dictionaries that `connect` fills and
  `disconnect` empties.
- **Conversational agent** (`AudioAgent`, module `Agent`, `agent.dfy`). Input goes
  through the detector while no turn is in flight. A detected segment starts a turn:
  1. transcribe the segment;
  2. add the text to the chat history as the user's entry;
  3. answer the whole history;
  4. add the answer as the assistant's entry;
  5. synthesise the answer and queue it on the output stream.

  The speech-to-text, language-model and text-to-speech services are oracles: the
  model takes them as functions from their arguments to what the call produced
  (a value, the caught `ClientOSError`, or any other exception).
- **Client playback buffer** (`AudioProcessor`, module `Processor`,
  `processor.dfy`). This is the browser's audio worklet. It appends received audio
  and uses hysteresis: playback starts at one second buffered and stops below half
  a second. While playing, each render call copies the front of the buffer into the
  output channel array, zero-filled, and drops what it copied.

Shared definitions are in module `Samples` (`samples.dfy`):

- optional values and error outcomes;
- Python's truncating `int()`;
- silence;
- the energy sum;
- concatenation of chunks.

Every object the program updates in place is a Dafny `class`:

- `Vad`
- `OutputAudioStream`
- both `AudioAgent`s
- `Sessions`
- `AudioProcessor`

Each class has the mutable fields of its source class, with two exceptions.
`OutputAudioStream` has no `lock` field, because its methods are atomic here. It
also has no `silence` field: that frame is used only to build the background.

`Vad`, `OutputAudioStream` and `AudioProcessor` have a `State()` function that
projects their mutable fields to a value. Their methods are proved against a
specification function on that value:

- `DetectStep` for `Detect`;
- `NextFrame` and `Inject` for the stream's two methods;
- `Receive` and `ProcessStep` for the client.

The two `AudioAgent`s and `Sessions` state their new fields directly in their
`ensures` clauses. The conversational agent's `RunTurn` and `ProcessInputAudio` tie
the new chat history, the stream's new state and the outcome, field by field, to
the specification function `Turn`.

What the source promises is proved as lemmas about those functions. The
`AudioProcessor.Process` method writes the output channel `array` in place with a
loop, as the source does.

Each `async with self.lock` body is modelled as one atomic step, and so is a whole
turn of the conversational agent and a whole tone sequence of the placeholder
agent. Samples are reals.

## Model

| member | source | states |
|---|---|---|
| Samples.Truncate | src/server/src/vad.py:16-18 | `int()` of a float truncates toward zero: the result lies within one of the argument, on the side of zero |
| Samples.SecondsToSamples | src/server/src/vad.py:16-18 | a non-negative duration converts to a sample count between 0 and `seconds * sample_rate` |
| Samples.Zeros | src/server/src/main.py:23-24 | `np.zeros(n)` has length `n` and every sample is 0 |
| Samples.SumSquares | src/server/src/vad.py:37 | the energy of a window (sum of squared samples) is never negative |
| Samples.SilenceHasNoEnergy | src/server/src/vad.py:37 | a window of zeros has energy 0 (by induction over the window) |
| VoiceActivity.KeepLatestIsLongestSuffix | src/server/src/vad.py:25-29 | after truncation the buffer is the longest suffix of `old buffer ++ data` that the bound allows |
| VoiceActivity.DetectKeepsBufferBounded | src/server/src/vad.py:24-63 | after every `detect` the buffer is within `max_buffer_length`; it is either the reset buffer or the truncated `old ++ data`; "run in progress iff it holds chunks" is preserved |
| VoiceActivity.DetectionOnlyAfterLongRun | src/server/src/vad.py:47-59 | a segment is reported only when a run is in progress, its length is at least `min_speech_length`, and the detector is reset; the segment is the buffer's suffix of length `min(len(buffer), run + window//2)` |
| VoiceActivity.ShortBufferLeavesRun | src/server/src/vad.py:32 | with less than a window buffered, only the buffer changes and nothing is reported |
| VoiceActivity.LoudWindowExtendsRun | src/server/src/vad.py:34-45 | a window whose average energy exceeds the threshold appends `data` to the run, marks speech and reports nothing |
| VoiceActivity.QuietWithoutRunOnlyBuffers | src/server/src/vad.py:46-47 | a quiet window with no run in progress changes only the buffer and reports nothing |
| VoiceActivity.QuietWindowEndsRun | src/server/src/vad.py:46-61 | a quiet window during a run resets the detector; the segment is reported exactly when the run is long enough |
| VoiceActivity.DetectAll | src/server/src/vad.py:24-63 | feeding chunks one by one yields one report per chunk |
| VoiceActivity.SilenceIsNeverDetected | src/server/src/vad.py:32-47 | with a non-negative threshold, silent input to a silent, idle detector never starts a run and is never reported (by induction over the chunks) |
| VoiceActivity.Vad.constructor | src/server/src/vad.py:6-19 | the lengths are `int(seconds * sample_rate)` of the arguments, the threshold is stored, the detector starts reset |
| VoiceActivity.Vad.UpdateThreshold | src/server/src/vad.py:21-22 | sets the threshold and may change nothing else |
| VoiceActivity.Vad.Detect | src/server/src/vad.py:24-63 | the new buffer, run and report are those of `DetectStep` (which, with `KeepLatest`, models vad.py:24-63; their properties are the lemmas above); the class invariant is kept |
| VoiceActivity.Vad.Reset | src/server/src/vad.py:65-68 | empties the buffer and the run and clears the speech flag |
| OutputStream.FrameGeometry | src/server/src/main.py:17-24 | `frame_size == int(8000 * 0.1) == 800`, the buffer is 100 frames (80000 samples), and the background is silent |
| OutputStream.MixOntoSilence | src/server/src/main.py:40 | adding an injected frame to a silent background frame yields the injected frame exactly |
| OutputStream.BackgroundFrame | src/server/src/main.py:33 | every background frame is `frame_size` zeros |
| OutputStream.NextFrame | src/server/src/main.py:30-48 | a pull yields exactly `frame_size` samples, keeps `current_index` in `[0, n_frames)` and advances it by one modulo `n_frames`, and keeps the read cursor within the queued payload |
| OutputStream.IdlePullIsSilence | src/server/src/main.py:33-36 | with nothing queued, a pull is silence and the queue stays empty |
| OutputStream.PullPlaysOrClears | src/server/src/main.py:36-42 | while `(index+1)*frame_size < len(payload)`, a pull plays payload frame `index` and advances the cursor; otherwise it is silence and the payload is dropped |
| OutputStream.Inject | src/server/src/main.py:50-59 | raises "longer than buffer" iff `len > buffer_length`; raises "not a multiple" iff it fits but `len % frame_size != 0`; a raise changes nothing; acceptance queues the payload at cursor 0 and leaves the background position alone; the read cursor stays within the queued payload |
| OutputStream.LastWriterWins | src/server/src/main.py:58-59 | an accepted payload replaces whatever was queued before it |
| OutputStream.Pulls | src/server/src/main.py:30-48 | `n` pulls give `n` frames of `frame_size` samples each |
| OutputStream.PullsPlayInOrder | src/server/src/main.py:36-40 | while enough payload remains, consecutive pulls play consecutive payload frames, none skipped or repeated (by induction) |
| OutputStream.PayloadPlaysAllButLastFrame | src/server/src/main.py:36-42 | a `k`-frame payload is heard as its first `k-1` frames in order, then a silent frame that drops it |
| OutputStream.LastFrameNeverPlayed | src/server/src/main.py:37 | a one-frame payload is accepted but never heard: the next pull is silence and drops it |
| OutputStream.NextFrameIntended | src/server/src/main.py:30-48 | the pull with `<=`: same frame size and background-position guarantees as the code's pull |
| OutputStream.IntendedPullsPlayInOrder | src/server/src/main.py:36-40 | with `<=`, consecutive pulls play consecutive payload frames up to the very last one (by induction) |
| OutputStream.IntendedPlaysEveryFrame | src/server/src/main.py:36-42 | with `<=`, a `k`-frame payload is heard in full and in order, and the pull after it drops it |
| OutputStream.OutputAudioStream.constructor | src/server/src/main.py:12-28 | the stream starts at background frame 0 with nothing queued |
| OutputStream.OutputAudioStream.GetAudioFrame | src/server/src/main.py:30-48 | the returned frame and the new state are those of `NextFrame` (the code's `<`) |
| OutputStream.OutputAudioStream.InjectAudio | src/server/src/main.py:50-59 | the outcome and the new state are those of `Inject` |
| Server.AudioAgent.constructor | src/server/src/main.py:62-66 | the agent plays into the given stream, with an empty input buffer and the flag down |
| Server.AudioAgent.ReceiveInputAudio | src/server/src/main.py:68-73 | the chunk is always appended; a tone sequence starts exactly when the flag was down, and the flag is raised before it starts |
| Server.AudioAgent.InjectSineWaves | src/server/src/main.py:76-94 | every one-second tone is accepted in turn; with the pauses left out, the last tone is still queued at cursor 0 when the flag is lowered |
| Server.AudioAgent.ProcessInputAudio | src/server/src/main.py:68-74 | the chunk is always recorded; with the flag up nothing else changes and no tones are needed, with it down the tone sequence runs to completion |
| Server.Sessions.constructor | src/server/src/main.py:96-97 | both dictionaries start empty |
| Server.Sessions.Connect | src/server/src/main.py:104-108 | `sid` gets a fresh stream and a fresh agent playing into it in both dictionaries; other sessions are untouched; the keys stay equal and streams stay unshared |
| Server.Sessions.Disconnect | src/server/src/main.py:111-115 | an unknown `sid` raises `KeyError` and changes nothing; otherwise `sid` is removed from both dictionaries |
| Agent.Turn | src/server/src/agent.py:49-70 | a turn keeps the old history as a prefix and appends at most two entries |
| Agent.RepliedExactlyWhenAllSucceed | src/server/src/agent.py:49-66 | a turn replies iff stt, llm and tts all return and the audio is injectable; llm sees the history including the new user entry; the history gains exactly the user entry then the assistant entry; the reply is queued at cursor 0 |
| Agent.FailedCallsAppendLess | src/server/src/agent.py:49-60 | a failed stt appends nothing; a failed llm appends only the user entry; neither touches the stream |
| Agent.RecoversFromConnectionErrors | src/server/src/agent.py:49-75 | when the services raise nothing but `ClientOSError` and their audio is injectable, no exception escapes the turn |
| Agent.UnalignedReplyEscapes | src/server/src/agent.py:63-66 | a reply that fits but is not a whole number of frames makes `inject_audio` raise; the turn escapes with both entries appended and nothing queued |
| Agent.PadToFrames | src/server/src/agent.py:63-66 | the padded reply is a whole number of frames, less than one frame longer, starts with the reply and ends in zeros |
| Agent.PaddedReplyIsAccepted | src/server/src/agent.py:63-66 | a padded reply no longer than the buffer is always accepted and queued at cursor 0 |
| Agent.AudioAgent.constructor | src/server/src/agent.py:13-22 | the agent has a fresh, reset detector at the stream's sample rate with the default threshold and the default lengths (window 16000, minimum run 16000, buffer bound 960000 samples), no turn in flight and an empty history |
| Agent.AudioAgent.GetStatus | src/server/src/agent.py:24-28 | reports the current busy flag and history and changes nothing |
| Agent.AudioAgent.UpdateSettings | src/server/src/agent.py:30-32 | without a `"threshold"` key raises `KeyError` and changes nothing; otherwise forwards the value to the detector and changes nothing else |
| Agent.AudioAgent.ProcessInputAudio | src/server/src/agent.py:34-75 | while busy, the input is dropped and the detector, history and stream are unchanged; without a detection, only the detector moves; with one, the history, stream and outcome are those of `Turn`, and the agent stays busy exactly when an exception escaped |
| Agent.AudioAgent.RunTurn | src/server/src/agent.py:49-75 | the step-by-step turn matches `Turn`; the busy flag is lowered exactly when no exception escaped |
| Processor.ThresholdsOrdered | src/client/public/processor.js:6-8 | `high == 8000`, `low == 4000`, and `0 < low < high` |
| Processor.Receive | src/client/public/processor.js:11-19 | an `audioData` message appends its samples to the buffer; any other message changes nothing |
| Processor.ChannelFrom | src/client/public/processor.js:36-38 | the channel holds the buffer's front, then zeros past its end |
| Processor.ProcessStep | src/client/public/processor.js:24-48 | `process` never grows the buffer and only ever removes its front |
| Processor.WaitingConsumesNothing | src/client/public/processor.js:41-45 | before playback nothing is written or consumed, and playback starts iff at least `high` samples are buffered |
| Processor.StarvedPlaybackStops | src/client/public/processor.js:29-34 | during playback, fewer than `low` samples stop playback with the buffer unchanged and nothing written |
| Processor.PlayingCopiesAndDrops | src/client/public/processor.js:35-40 | otherwise the channel gets the buffer's front, zero-filled, and exactly its first `min(channel.length, len)` samples are dropped |
| Processor.ShortChannelsAreNeverPadded | src/client/public/processor.js:33-39 | with channels no longer than `low`, a written channel is exactly the front of the buffer and is dropped from it |
| Processor.OneEventConserves | src/client/public/processor.js:11-40 | for one message or render call, the samples removed plus those kept equal the samples held plus those delivered |
| Processor.NoSampleSkippedOrRepeated | src/client/public/processor.js:11-40 | over any run of messages and render calls, the samples taken out of the buffer by render calls, followed by those still buffered, equal the samples buffered at the start followed by all received: none skipped or taken twice (by induction). The samples taken out are the ones written to the channel, by `PlayingCopiesAndDrops` |
| Processor.AudioProcessor.constructor | src/client/public/processor.js:2-8 | the buffer starts empty, playback off, thresholds 8000 and 4000 |
| Processor.AudioProcessor.OnMessage | src/client/public/processor.js:11-19 | the new state is that of `Receive` |
| Processor.AudioProcessor.Process | src/client/public/processor.js:24-48 | always returns true; the new state is that of `ProcessStep`; the channel array is written in place with its content exactly when playing, and untouched otherwise |

## Left out

- Logging (`print`), the `asyncio.Lock` and the event loop:
  - each lock-guarded method and each stretch between two `await`s is one atomic step;
  - interleavings of a turn with other coroutines are not modelled, apart from the turn (`RunTurn`) being a step of its own after the busy flag is raised.
- `asyncio.sleep` pacing (src/server/src/main.py:80-92, src/server/src/agent.py:70) is timing, not logic. The placeholder agent's tones are modelled as injected back to back. In the program, the last tone has been played (all but its final frame) and cleared by the time the flag is lowered; in the model it is still queued.
- `send_audio_to_client`, the `audio_input` handler, `start_background_task`, the Socket.IO emit, the HTTP route and the CORS setup (src/server/src/main.py:109, 117-148) are I/O. `np.frombuffer` decoding is part of that I/O.
- `generate_sine_wave` (src/server/src/main.py:99-102) is float trigonometry. Its five tones are parameters, `waves`, one second of samples each.
- The float32 rounding of NumPy and `Float32Array` buffers is not modelled. Samples are reals, so the energy sum and `frame += inject_frame` are exact.
- The stt, llm and tts HTTP clients (src/server/src/stt.py, llm.py, tts.py) are not part of this model. They are oracles returning a value, `ClientOSError`, or another exception.
- The chat history that `get_status` returns is a value. Aliasing of the Python list by the caller is not modelled.
- Settings values are reals. `update_settings` does not check their type, and neither does the model.
- The WebRTC server (server/main.py), the bare socket server (server/simplified_server.py), the React client and `micProcessor.js` are not part of this model.
- VoiceActivity.Vad.constructor requires the energy window and the buffer bound to be at least one sample:
  - with a zero bound, Python's `buffer[-0:]` keeps the whole buffer;
  - with a zero window, the average divides by zero;
  - neither quirk is modelled.
- Server.AudioAgent.InjectSineWaves requires five waves of `sample_rate` samples each, which is what `generate_sine_wave(f, 1, sample_rate)` returns. Other wave lengths are not modelled.
- The classes `OutputStream.OutputAudioStream` and `Agent.AudioAgent` keep the code's behaviour:
  - the strict `<` of the pull;
  - no padding of the reply.

  The corrected definitions in the Findings stand beside them; they do not replace them.

### Behaviour the model keeps as the code has it

- `inject_audio` does not pad audio to a whole number of frames. It raises `ValueError` instead (src/server/src/main.py:55-56).
- A `k`-frame payload is heard as `k-1` frames (src/server/src/main.py:37). This holds even though `inject_audio` insists on whole frames (src/server/src/main.py:55-56), which only makes sense if every frame is meant to be played.
- A pull with nothing queued still returns a frame: the silent background frame (src/server/src/main.py:33).
- The frame size is truncated with `int()`, not rounded (src/server/src/main.py:19). At 8000 Hz and 0.1 s both give 800.
- A turn does not always return to idle. Only `ClientOSError` is caught (src/server/src/agent.py:71). Any other exception leaves `is_processing` true, and the agent then drops all further input.

## Findings

| source | as written | input that shows it | evidently intended | confidence | as-written member | corrected member |
|---|---|---|---|---|---|---|
| src/server/src/main.py:37 | a payload frame is played only while `(index+1)*frame_size < len(payload)`, so the last frame of every payload is dropped | a payload of exactly 800 samples (one frame): the first pull is silence and clears it | `<=`, so every frame of the payload is played | high (not executed) | OutputStream.LastFrameNeverPlayed | OutputStream.IntendedPlaysEveryFrame |
| src/server/src/agent.py:63-66 | the synthesised reply goes to `inject_audio` unpadded; `inject_audio` raises `ValueError` for a length that is not a multiple of 800; the error is not caught (line 71), so `is_processing` stays true and the agent ignores all later input | a tts reply of 801 samples | pad the reply with zeros to a whole number of frames before injecting | medium (not executed) | Agent.UnalignedReplyEscapes | Agent.PaddedReplyIsAccepted |
