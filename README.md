# hachi-ai audio capture core, modelled in Dafny

hachi-ai is a voice assistant. Its audio core has three parts:

- **The recording session of the `AudioRecorder` component.** It opens the microphone and records. It stops either at a 10-second cap or when two loudness estimates agree (voice-activity detection). Then it hands the audio on for transcription.
- **A chunk accumulator (`audioInput.ts`).** It collects the encoded chunks a `MediaRecorder` delivers and turns them into one blob.
- **Helpers in `App.tsx`.**
  - The cleaner applied to every transcript: `replaceAll(/\(.+\)/g, '')`.
  - The step that appends the transcript to the conversation.
  - The guard that decides whether to ask the assistant.
  - The choice of a path from a file dialog.

The project has five modules:

- `Wrappers` holds Option, for values that may be `null` or `undefined`.
- `Media` holds the byte type and the opaque handle type for browser objects.
- `AudioRecorder` models `src/components/AudioRecorder/index.tsx`. Every transition is a function on the `Session` datatype. The `Recorder` class holds the same state in fields (the component's refs). Each of its methods is proved to perform its function. With the corrected start guard (see Findings), a run of events (`Step`, `Run`, `Effects`) is proved to keep the session invariant and to follow the life cycle: idle, acquiring, live, idle, so each session gets exactly one effective stop. The component as written (`StepAsWritten`) does not have this property (`DoubleStartLeaks`).
- `AudioInput` models `src/utils/audioInput.ts` as the class `ChunkRecorder`. A ghost field records every chunk delivered since the array was last emptied, that is, since the last `stop` event that ran a listener. A stop is split into the `stopRecording` call and the recorder's `stop` event, which the browser dispatches in a later task.
- `App` models the pure logic of `src/App.tsx`. The regular expression follows ECMA-262 section 22.2:
  - greedy `.+`;
  - `.` excludes the four line terminators of section 12.3;
  - the `g` flag resumes the scan after each match.

Inputs the model takes as parameters:

- the clock: `now`, an integer in milliseconds;
- the two analysers' byte spectra: 1024 bins each, since `fftSize` is 2048;
- the browser objects a start creates;
- the chunks a recorder delivers;
- what the file dialog returns;
- the transcript text.

Arithmetic:

- **Band averages** are reals. Each one is a byte sum divided by 1024, so it is exact in binary64. The test `|longAvg - shortAvg| < 1` is proved equal to `|longSum - shortSum| < 1024`.
- **`Math.round`** is `(ms + 500) / 1000` with floor division. It is proved to give the nearest integer, with ties going up, as ECMA-262 section 21.3.2 defines it.

Facts about the code that the model keeps:

- **The remaining time is not clamped** (`src/components/AudioRecorder/index.tsx:43`). The formula alone can give a negative value (`RemainingTimeIsNotClamped`). It only does so on a tick at or past the cap, and that tick's stop resets the display to 10 in the same tick. So the state left after each whole tick never shows a negative value (`SessionInvariant`). This relies on React 18 batching the two state writes (`createRoot` in `src/main.ts`).
- **Every volume poll compares the spectra the analysers report**, the first one included (`src/components/AudioRecorder/index.tsx:114-116`).
- **A stop ends the session at once** (`src/components/AudioRecorder/index.tsx:145-149`). Decoding the recording afterwards is left to the browser.
- **The chunk accumulator is module-level state of `src/utils/audioInput.ts`** (lines 1-2). The component does not use it.

## Model

| member | source | states |
|---|---|---|
| `AudioRecorder.RoundToSeconds` | src/components/AudioRecorder/index.tsx:43 | `Math.round(ms / 1000)` is the integer nearest ms/1000, ties going up, stated both in integers and in reals |
| `AudioRecorder.RoundToSecondsIsUnique` | src/components/AudioRecorder/index.tsx:43 | every integer within half a second of ms/1000 (ties up) is the one computed |
| `AudioRecorder.RemainingTime` | src/components/AudioRecorder/index.tsx:42-43 | the value shown is the whole number of seconds nearest to the time left before the cap, ties going up |
| `AudioRecorder.RemainingTimeAtStart` | src/components/AudioRecorder/index.tsx:31 | at elapsed 0 the formula gives 10, the display's initial value |
| `AudioRecorder.RemainingTimeNonIncreasing` | src/components/AudioRecorder/index.tsx:42-43 | the remaining time never goes up as the elapsed time grows |
| `AudioRecorder.RemainingTimeBeforeCap` | src/components/AudioRecorder/index.tsx:43-46 | before the cap the remaining time is at least 0, and at most 10 once elapsed is not negative |
| `AudioRecorder.RemainingTimeIsNotClamped` | src/components/AudioRecorder/index.tsx:43 | the formula is unclamped: at 10600 ms it gives -1 |
| `AudioRecorder.BinSum` | src/components/AudioRecorder/index.tsx:97 | the left-fold sum of byte bins lies between 0 and 255 times the bin count |
| `AudioRecorder.BandAverage` | src/components/AudioRecorder/index.tsx:95-103 | a band average (sum over `frequencyBinCount`) lies in [0, 255] |
| `AudioRecorder.IsSilent` | src/components/AudioRecorder/index.tsx:107-109 | the real-valued test that the averages differ by less than 1 holds exactly when the byte sums differ by less than 1024 |
| `AudioRecorder.BeginStartAsWritten` | src/components/AudioRecorder/index.tsx:58 | the guard as written passes exactly when `recording` is not set; a pending start does not block it |
| `AudioRecorder.BeginStart` | src/components/AudioRecorder/index.tsx:57-60 | the corrected guard, also refusing a start while one awaits its stream; its properties are stated in `BeginStartProceedsIffIdle` and `SecondStartIsRefused` |
| `AudioRecorder.AbortStart` | src/components/AudioRecorder/index.tsx:60-67 | a refused `getUserMedia` forgets the pending start and changes nothing else (corrected model) |
| `AudioRecorder.CompleteStart` | src/components/AudioRecorder/index.tsx:85-92 | the continuation after the await stores the three objects, the clock and `recording`; its properties are stated in `CompletedStartRecords` |
| `AudioRecorder.StartWhileRecordingIsNoOp` | src/components/AudioRecorder/index.tsx:58 | a start while recording is refused and changes no field, as written and in the corrected model |
| `AudioRecorder.BeginStartProceedsIffIdle` | src/components/AudioRecorder/index.tsx:57-60 | a start gets through exactly when nothing is recording or being acquired; a refused start changes nothing; one that gets through changes only the pending flag |
| `AudioRecorder.SecondStartIsRefused` | src/components/AudioRecorder/index.tsx:58 | once a start has passed the guard, a second start is refused and changes nothing |
| `AudioRecorder.CompletedStartRecords` | src/components/AudioRecorder/index.tsx:85-92 | a completed start leaves `recording` set, all three handles holding the new objects, `startTime = now`, the display unchanged, and the invariant kept |
| `AudioRecorder.CompleteStartDropsNoHandle` | src/components/AudioRecorder/index.tsx:86-88 | when a pending start completes, no handle is held, so none is overwritten |
| `AudioRecorder.StepAsWritten` | src/components/AudioRecorder/index.tsx:57-150 | one event in the component as written: a start passes whenever nothing records, and every passed start's stream is stored on arrival; other events as in `Step` |
| `AudioRecorder.DoubleStartLeaks` | src/components/AudioRecorder/index.tsx:58-92 | as written, the run start, start, arrival, arrival, stop passes both guards, keeps only the second session's objects, and ends with nothing pending or recording after two sessions opened and one stopped |
| `AudioRecorder.Stop` | src/components/AudioRecorder/index.tsx:126-150 | a stop changes nothing unless its guard passes, and then ends the recording; its properties are stated in `StopIsIdempotent`, `StopEndsRecording` and `StopWhenIdleIsNoOp` |
| `AudioRecorder.StopIsIdempotent` | src/components/AudioRecorder/index.tsx:127 | after a stop the guard fails, so a second stop, from either timer or the button, changes nothing |
| `AudioRecorder.StopEndsRecording` | src/components/AudioRecorder/index.tsx:127-149 | a stop of a recording session takes effect: `recording` false, display 10, all three handles cleared, start time kept, invariant kept |
| `AudioRecorder.StopWhenIdleIsNoOp` | src/components/AudioRecorder/index.tsx:127 | a stop while not recording leaves the state as it is |
| `AudioRecorder.DurationTick` | src/components/AudioRecorder/index.tsx:40-49 | the duration interval's body; its properties are stated in `DurationTickStopsAtCap` and `DurationTickWhenIdleIsNoOp` |
| `AudioRecorder.DurationTickStopsAtCap` | src/components/AudioRecorder/index.tsx:40-49 | a duration tick while recording stops exactly when elapsed is at least 10000; otherwise it only sets the display to the rounded remaining seconds; the invariant is kept |
| `AudioRecorder.DurationTickWhenIdleIsNoOp` | src/components/AudioRecorder/index.tsx:41 | a duration tick while not recording changes nothing |
| `AudioRecorder.VolumeCheck` | src/components/AudioRecorder/index.tsx:94-112 | `checkVolume` stops exactly when recording and silent; stated through `PollTickStopsOnSilence` |
| `AudioRecorder.PollTick` | src/components/AudioRecorder/index.tsx:114-120 | the poll interval's body; its properties are stated in `PollTickStopsOnSilence` |
| `AudioRecorder.PollTickStopsOnSilence` | src/components/AudioRecorder/index.tsx:109-119 | a poll while recording stops exactly when the sums differ by less than 1024, otherwise changes nothing, and keeps the interval; a poll while not recording only cancels itself |
| `AudioRecorder.TimersCommute` | src/components/AudioRecorder/index.tsx:40-120 | the duration tick and the volume poll reach the same state in either order |
| `AudioRecorder.Step` | src/components/AudioRecorder/index.tsx:57-150 | one event with the corrected start guard; its properties are stated in `StepFollowsLifeCycle` |
| `AudioRecorder.StepFollowsLifeCycle` | src/components/AudioRecorder/index.tsx:57-150 | with the corrected start guard, every call, callback or timer keeps the invariant and moves the life cycle only along idle→acquiring→live→idle or acquiring→idle |
| `AudioRecorder.RunFollowsLifeCycle` | src/components/AudioRecorder/index.tsx:57-150 | with the corrected start guard, any run of events keeps the invariant, follows the life cycle, and ends in the phase of its final state |
| `AudioRecorder.FollowsAlternates` | src/components/AudioRecorder/index.tsx:127-149 | with the corrected start guard, along the life cycle, arrivals and effective stops balance, up to sessions live at either end |
| `AudioRecorder.OneStopPerSession` | src/components/AudioRecorder/index.tsx:127-149 | with the corrected start guard, from mount, stops that take effect equal the sessions opened, less one while the last is still recording |
| `AudioRecorder.Recorder.constructor` | src/components/AudioRecorder/index.tsx:30-37 | the component mounts not recording, with no objects and the display at 10 |
| `AudioRecorder.Recorder.StartRecording` | src/components/AudioRecorder/index.tsx:57-58 | the synchronous part of `startRecording` performs `BeginStart` |
| `AudioRecorder.Recorder.OnStreamDenied` | src/components/AudioRecorder/index.tsx:60-67 | a refused `getUserMedia` clears the pending start and nothing else |
| `AudioRecorder.Recorder.OnStreamArrived` | src/components/AudioRecorder/index.tsx:85-92 | the continuation after the await stores the three objects, `startTime` and `recording` (`CompleteStart`) |
| `AudioRecorder.Recorder.StopRecording` | src/components/AudioRecorder/index.tsx:126-150 | `stopRecording` performs `Stop` and reports whether its guard passed |
| `AudioRecorder.Recorder.OnDurationTimer` | src/components/AudioRecorder/index.tsx:40-49 | the duration interval's body performs `DurationTick` |
| `AudioRecorder.Recorder.CheckVolume` | src/components/AudioRecorder/index.tsx:94-112 | `checkVolume` stops exactly when recording and silent (`VolumeCheck`) |
| `AudioRecorder.Recorder.OnVolumePoll` | src/components/AudioRecorder/index.tsx:114-120 | the poll interval's body performs `PollTick` and reports whether it keeps itself scheduled |
| `AudioInput.NonEmpty` | src/utils/audioInput.ts:16-19 | the chunks kept from a series of arrivals are no more than those arrived, and each is non-empty |
| `AudioInput.NonEmptyKeepsOrder` | src/utils/audioInput.ts:18 | keeping chunks distributes over later arrivals: earlier entries are never altered and order is kept |
| `AudioInput.NonEmptyTotalSize` | src/utils/audioInput.ts:17-18 | the kept chunks total the size of all chunks that arrived |
| `AudioInput.NonEmptyConcat` | src/utils/audioInput.ts:16-19 | dropping empty chunks does not change the concatenated bytes |
| `AudioInput.Concat` | src/utils/audioInput.ts:27 | the bytes of `new Blob(parts)`; its properties are stated in `ConcatLength`, `ConcatAppend` and `ConcatPlacesPart` |
| `AudioInput.TotalSize` | src/utils/audioInput.ts:27 | the sum of the parts' sizes; tied to the blob by `ConcatLength` |
| `AudioInput.ConcatLength` | src/utils/audioInput.ts:27 | a blob holds as many bytes as its parts together |
| `AudioInput.ConcatAppend` | src/utils/audioInput.ts:27 | the blob of two runs of parts is the first's bytes followed by the second's |
| `AudioInput.ConcatPlacesPart` | src/utils/audioInput.ts:27 | part i sits in the blob at the total size of the parts before it |
| `AudioInput.ChunkRecorder.constructor` | src/utils/audioInput.ts:1-2 | on load there is no recorder, none is active, no listener waits, and the chunk array is empty |
| `AudioInput.ChunkRecorder.StartRecording` | src/utils/audioInput.ts:14-22 | a start replaces only the recorder reference with a new recorder, now active; the chunk array and earlier recorders' listeners are untouched |
| `AudioInput.ChunkRecorder.OnDataAvailable` | src/utils/audioInput.ts:16-19 | a data event appends its chunk if and only if it is non-empty, after and without altering the earlier entries |
| `AudioInput.ChunkRecorder.StopRecording` | src/utils/audioInput.ts:24-33 | with no recorder the promise rejects; otherwise the current recorder becomes inactive and gains a listener, which waits for its `stop` event exactly when that event is still to be dispatched, and never settles once it has been, whether `stopRecording` or the recorder itself ended it; the chunk array is untouched |
| `AudioInput.ChunkRecorder.OnRecorderEnded` | src/utils/audioInput.ts:14-22 | a recorder that ends by itself (its tracks end or recording fails) becomes inactive with no listener waiting on it; the listeners, the chunk array and its arrivals are unchanged, so its chunks go into the next blob, which then joins the outputs of two recorders |
| `AudioInput.ChunkRecorder.OnStop` | src/utils/audioInput.ts:26-30 | a recorder's `stop` event runs every listener added before it: the first resolves with the `audio/webm` blob of the kept chunks in order, sized as every chunk delivered since the array was last emptied (the last `stop` event that ran a listener); the later ones resolve with empty blobs; the array is emptied |
| `App.FirstLineEnd` | src/App.tsx:116 | the first line of a text ends at its first line terminator, or at its end |
| `App.LastCloseInLine` | src/App.tsx:116 | the position greedy `.+` backtracks to is the last `)` on the first line, or there is none on that line |
| `App.MatchAt` | src/App.tsx:116 | a match of `/\(.+\)/` starts here exactly when some span is one; if so, the longest is taken |
| `App.StripParenthesized` | src/App.tsx:116 | the cleaned transcript is never longer than the transcript |
| `App.StripIsSubsequence` | src/App.tsx:116 | the cleaned text is the transcript with some characters deleted |
| `App.StripFixedPoint` | src/App.tsx:116 | cleaning changes nothing exactly when no match starts anywhere in the text |
| `App.NoOpenParenUnchanged` | src/App.tsx:116 | a transcript without `(` comes back unchanged |
| `App.StripLeavesNoMatch` | src/App.tsx:116 | no match starts anywhere in a cleaned text |
| `App.StripIsIdempotent` | src/App.tsx:116 | cleaning twice equals cleaning once |
| `App.MatchStopsAtLineTerminator` | src/App.tsx:116 | what follows a line terminator cannot change a match before it |
| `App.StripSplitsAtLineTerminator` | src/App.tsx:116 | no removed span crosses a line terminator: the two sides are cleaned separately and the terminator is kept |
| `App.StripKeepsLineTerminators` | src/App.tsx:116 | cleaning keeps every line terminator, in order |
| `App.GreedyAcrossTwoGroups` | src/App.tsx:116 | `a(b)c(d)e` becomes `ae` |
| `App.EmptyParenthesesKept` | src/App.tsx:116 | `()` is kept, since `.+` needs a character |
| `App.RecordTranscript` | src/App.tsx:117 | the new user message comes after all existing messages, which stay unchanged; its content is the transcript with characters deleted and no match left |
| `App.ShouldQueryAssistant` | src/App.tsx:72-78 | the effect asks the assistant unless the conversation is empty or ends in the assistant's message; stated through `TranscriptTriggersQuery` and `ReplyEndsExchange` |
| `App.TranscriptTriggersQuery` | src/App.tsx:72-78 | after a transcript is recorded the assistant is asked, even when cleaning emptied it |
| `App.ReplyEndsExchange` | src/App.tsx:78 | after the assistant's reply the effect does not ask again |
| `App.PickPath` | src/App.tsx:46-50 | null, an empty string or an empty list yields no path; a list yields its first element; a string yields itself (same rule at src/App.tsx:59-63) |

## Findings

| source | as written | input that shows it | evidently intended | confidence | as-written member | corrected member |
|---|---|---|---|---|---|---|
| src/components/AudioRecorder/index.tsx:58-92 | The guard reads `recording`, but `recording` is set only after `await getUserMedia`. A second start during the await passes the guard. | Two clicks on "Start Recording" before the microphone permission resolves. Both calls acquire a stream. The second overwrites the three refs, so the first stream, context and recorder are never stopped. | A start while another start or a recording is under way is refused. | medium, not executed | `AudioRecorder.DoubleStartLeaks` (over `AudioRecorder.StepAsWritten`) | `AudioRecorder.BeginStart`, proved in `AudioRecorder.SecondStartIsRefused` and `AudioRecorder.CompleteStartDropsNoHandle` |

The corrected model adds one `starting` flag. It is set when a start passes the guard, and cleared when the stream arrives or is refused. The class `Recorder` and the event model use it.

## Left out

- Browser and hardware calls are not modelled. These are `getUserMedia`, `AudioContext`, `createAnalyser` with its FFT and smoothing constants, `MediaRecorder.start`/`stop`, stopping the tracks and `AudioContext.close` (src/components/AudioRecorder/index.tsx:60-90, 130-132). They are foreign calls with floating-point signal processing, so handles and spectra are inputs. The model assumes that none of the calls after the `await` (src/components/AudioRecorder/index.tsx:69-90) throws. A throw from `start()` at line 90 would leave the three refs set while `recording` is false, outside `SessionInvariant`. A throw at lines 69-85 would leave the acquired stream open with no ref to it.
- The decode-and-notify path installed by a stop (src/components/AudioRecorder/index.tsx:134-143) is not modelled. It is `FileReader`, `decodeAudioData`, `getChannelData` and `onRecordingFinished`, all foreign and asynchronous. The model records only that a stop took effect.
- Real timers are not modelled: `setInterval`, `clearInterval`, the duration interval's unmount cleanup (lines 52-54) and `Date.now`. The poll interval has no unmount cleanup: lines 121-123 return a function from the click handler, and nothing calls it. A tick is a method call with `now`. Whether a cleared interval fires again is the scheduler's business.
- Which render's closure a timer calls is not modelled. The model has one component state.
- `App.RecordTranscript` takes the current message list. In the code, the duration interval is created once on mount (src/components/AudioRecorder/index.tsx:39-55). A recording cut off at the cap therefore goes through the mount render's `stopRecording` and `onRecordingFinished`. That appends the transcript to App's `messages` as of AudioRecorder's mount (src/App.tsx:117), not to the current list. The model does not show this stale list.
- The `console.log` at line 105 and all rendering and styles (lines 8-27, 152-159; src/App.tsx:122-149) are left out.
- `Math.round` over binary64 is modelled as exact rational rounding. The two agree for the millisecond values a clock gives.
- `getAudioStream` (src/utils/audioInput.ts:4-12) is left out. It wraps `getUserMedia` and returns null on error.
- `AudioInput.ChunkRecorder.StopRecording` follows the MediaRecorder standard: `stop()` on an inactive recorder does nothing, and a recorder dispatches one `stop` event. The listeners a recorder keeps after its event are not modelled, since they never run again. A data event is not tied to the recorder that sent it: data events from older recorders still reach the shared array.
- `AudioInput.ChunkRecorder.StartRecording` takes a recorder no listener waits on, standing for a new `MediaRecorder` object.
- Remote and native calls in App.tsx are left out: `createChatCompletion`, the `invoke` calls (`load_model`, `load_vvc`, `transcribe_audio`, `speech_text`), audio playback and scrolling (lines 52-55, 65-68, 73-76, 83-97, 115). The model keeps the path that would be loaded and the message list.
- src-tauri/src/main.rs is not part of this model. It is Whisper inference and a TTS loop on a tokio task.
- src/openai.ts, a network client, is not part of this model.
- src/main.ts, the React bootstrap, is not part of this model.
- Strings are sequences of Unicode scalar values, while JavaScript uses UTF-16 code units. The pattern's parentheses and line terminators are single code units, so the match spans are the same.
