# Revo: live voice session, chat history and repair checklist

This project models the three stateful parts of the Revo vehicle-repair assistant:

- **The live voice session engine** (`hooks/useLiveSession.ts`), modelled as the class `LiveSession.LiveSession`. It holds:
  - the connection state;
  - five resource slots (remote session, microphone stream, script processor, input and output audio contexts);
  - the playback time cursor;
  - the set of active playback sources;
  - the speaking flag and the volume level.

  Each callback runs to completion as one method. The callbacks are connect, open, the settling of the remote session, a microphone frame, an inbound message (transcripts, tool calls, an audio chunk, an interruption), a source's end, close and error, plus disconnect.
- **The pure scheduling rule** for audio chunks, in module `Playback`. A chunk starts at `max(cursor, now)` and the cursor moves to its end. The module proves the gap, overlap and bound lemmas about it. `LiveSession.PlayChunks` together with `LiveSession.ScheduleOfEntries` shows that the engine schedules a run of chunks exactly at the rule's start times.
- **The chat history updaters of `App.tsx`**, in module `ChatHistory`:
  - `updateHistory`;
  - the transcript merger, with its 5000 ms window;
  - the `create_repair_guide` handler and guide builder;
  - the history handed to the text model;
  - the trimming guard;
  - the init message of a new vehicle.

  The application shell itself is the class `AppShell.App`. Its handlers (vehicle creation and selection, new session, live-mode toggle, text send and reply) drive one `LiveSession`, and the vehicle-switch effect runs at the end of the handler that changed the selection.
- **The repair checklist card** (`components/RepairGuideCard.tsx`), in module `RepairGuideCard`. It models the step and tool toggles on sets and the completion percentage.

How the outside world is represented:
- The audio devices, the decoder, the remote model and the clock are outside the model.
- Resources are numbered handles from a counter. Releasing one appends it to the `released` log. The session's invariant keeps that log free of repeats, and each release demands a handle not yet in it, so nothing is released twice.
- Playback sources are numbered ids. `source.stop()` appends to the `stopped` log, and `source.start(t)` appends to `scheduled`.
- Tool responses sent back to the session append to `toolResponses`.
- `Date.now()`, `crypto.randomUUID()` and the output clock `ctx.currentTime` are parameters. Times are integer ticks: milliseconds for messages and 24 kHz output-clock ticks for audio.
- A decoded chunk's duration and whether decoding succeeded are parameters, as is each tool handler's outcome (returned value or thrown error).

Where the code is followed against a looser description of it:
- Disconnect leaves the playback cursor untouched. Lines 30-71 never assign `nextStartTimeRef`, and only the next connect resets it (line 86).
- An interruption sets the cursor to 0 (line 218), not to the current clock. Because of the `max` at line 183, the next chunk still starts on arrival (`LiveSession.InterruptThenChunk`).

## Model

| member | source | states |
|---|---|---|
| Playback.StartTime | hooks/useLiveSession.ts:183 | a chunk's start is the later of the cursor and the clock, never earlier than either |
| Playback.Starts | hooks/useLiveSession.ts:183-210 | a run of chunks gets one start time each, chunk by chunk from the initial cursor; the first chunk starts at max(cursor, its arrival) |
| Playback.FinalCursor | hooks/useLiveSession.ts:183-210 | the cursor after a run never stands behind where it started, nor before the last chunk's arrival plus its duration |
| Playback.StartsStep | hooks/useLiveSession.ts:183-210 | in a run of chunks, each chunk after the first starts at max(end of its predecessor, its own arrival) |
| Playback.NoOverlap | hooks/useLiveSession.ts:183-210 | no chunk starts before its predecessor has finished playing |
| Playback.NoGap | hooks/useLiveSession.ts:183-210 | a chunk arriving no later than its predecessor's end starts exactly at that end (and only then); one arriving later starts on arrival |
| Playback.StartsBounds | hooks/useLiveSession.ts:183 | every chunk starts no earlier than its arrival and no earlier than the initial cursor |
| Playback.CursorAdvances | hooks/useLiveSession.ts:183-210 | after a non-empty run the cursor stands at the end of the last chunk, as scheduled by the rule |
| LiveSession.Remove | hooks/useLiveSession.ts:197 | deleting a source from the set drops exactly that entry and keeps the others in their order; the set stays duplicate-free and is unchanged if the source is absent |
| LiveSession.Responses | hooks/useLiveSession.ts:155-174 | a tool-call batch sends at most one response per call |
| LiveSession.Reply | hooks/useLiveSession.ts:157-170 | one function call sends a response iff its handler returned a truthy value, tagged with the call's id and name and carrying that value |
| LiveSession.ResponsesAppend | hooks/useLiveSession.ts:155-174 | a batch is handled call by call: a falsy or throwing handler does not stop the later calls |
| LiveSession.ResponsesTagged | hooks/useLiveSession.ts:158-168 | every response sent answers some call whose handler answered, with that call's id, name and output |
| LiveSession.ResponsesNoneAnswered | hooks/useLiveSession.ts:156-173 | when no handler answers (falsy or thrown), nothing is sent |
| LiveSession.ResponsesAllAnswered | hooks/useLiveSession.ts:155-170 | when every handler answers, one response per call is sent, in call order |
| LiveSession.Transcripts | hooks/useLiveSession.ts:145-150 | one onTranscript call per non-empty transcription and none for an empty one; the model's words come first and the user's last |
| LiveSession.PlaybackEffectCases | hooks/useLiveSession.ts:177-221 | the audio part of a message: a chunk that fails to decode only moves the cursor and the interruption is skipped; a decoded chunk is scheduled at max(cursor, now) as a new source and plays on unless the message also interrupts, when it is stopped with the others; without a chunk and without an interruption nothing changes; an interruption that is reached stops every source, rewinds the cursor to 0 and silences the model |
| LiveSession.LiveSession.constructor | hooks/useLiveSession.ts:16-27 | a new session is Disconnected, silent, at volume 0, with nothing held, no sources and the cursor at 0 |
| LiveSession.LiveSession.ReleaseSession | hooks/useLiveSession.ts:31-41 | the session is closed only if held, then the slot is nulled |
| LiveSession.LiveSession.ReleaseStream | hooks/useLiveSession.ts:43-46 | the stream is stopped only if held, then the slot is nulled |
| LiveSession.LiveSession.ReleaseProcessor | hooks/useLiveSession.ts:48-51 | the processor is disconnected only if held, then the slot is nulled |
| LiveSession.LiveSession.ReleaseInputContext | hooks/useLiveSession.ts:53-56 | the input context is closed only if held, then the slot is nulled |
| LiveSession.LiveSession.ReleaseOutputContext | hooks/useLiveSession.ts:58-61 | the output context is closed only if held, then the slot is nulled |
| LiveSession.LiveSession.ReleaseAll | hooks/useLiveSession.ts:31-61 | the five guarded releases release exactly the held handles, in slot order, none twice, and leave every slot empty |
| LiveSession.LiveSession.StopAllSources | hooks/useLiveSession.ts:63-66 | every active source is stopped once, in insertion order, and the set is emptied |
| LiveSession.LiveSession.ResetPlayback | hooks/useLiveSession.ts:63-70 | the playback half of disconnect: every source stopped in order, the set emptied, silent at volume 0 |
| LiveSession.LiveSession.Disconnect | hooks/useLiveSession.ts:30-71 | from any state: every held resource is released once, every source stopped, and the state is Disconnected, silent, at volume 0 with nothing held |
| LiveSession.LiveSession.DisconnectTwice | hooks/useLiveSession.ts:30-71 | a second disconnect releases and stops nothing more than the first did |
| LiveSession.LiveSession.Connect | hooks/useLiveSession.ts:73-106 | the capture callback's copy of the speaking flag is the flag at the call. Without an API key: Error, and no slot, log, counter, cursor or playback field changes. Otherwise Connecting with both contexts opened and the cursor at the output clock; microphone granted: stream and processor held, nothing released or stopped, four handles used; denied: everything held released (the new contexts last), every source stopped, and Error |
| LiveSession.LiveSession.OpenAudio | hooks/useLiveSession.ts:82-106 | the try block opens both contexts with the cursor at the output clock; then, microphone granted: stream and processor held, nothing released or stopped; denied: everything released, every source stopped, and Error |
| LiveSession.LiveSession.DenyMicrophone | hooks/useLiveSession.ts:236-240 | a failed microphone request tears down (the two new contexts released last, every source stopped in order) and ends in Error |
| LiveSession.LiveSession.FailConnect | hooks/useLiveSession.ts:236-240 | the catch block of connect tears everything down and ends in Error |
| LiveSession.LiveSession.OpenContexts | hooks/useLiveSession.ts:84-90 | two fresh contexts are held and the cursor is set to the output clock |
| LiveSession.LiveSession.OpenMicrophone | hooks/useLiveSession.ts:97-102 | a fresh stream and processor are held, the capture callback not yet installed |
| LiveSession.LiveSession.OnOpen | hooks/useLiveSession.ts:123-128 | onopen moves to Connected and installs the capture callback |
| LiveSession.LiveSession.OnSessionSettled | hooks/useLiveSession.ts:234-240 | a session that opens is held whatever the state, and nothing else changes; one that fails tears everything down (every source stopped) and ends in Error |
| LiveSession.LiveSession.OnAudioProcess | hooks/useLiveSession.ts:128-135 | with the current speaking flag: a microphone frame shows its level only while the callback is installed and the model is silent |
| LiveSession.LiveSession.OnAudioProcessAsWritten | hooks/useLiveSession.ts:128-135 | as written: the frame shows its level whenever the callback is installed and the flag copied at connect time was false, whatever the model is doing now |
| LiveSession.LiveSession.OnAudioChunk | hooks/useLiveSession.ts:178-210 | without an output context the chunk is ignored. Otherwise the cursor moves to max(cursor, now); a decoded chunk is scheduled there as a new source, the model speaks at 0.5, and the cursor moves to the chunk's end |
| LiveSession.LiveSession.StartSource | hooks/useLiveSession.ts:192-210 | a new source starts at the cursor, joins the active set, the model speaks at 0.5 and the cursor moves past the buffer |
| LiveSession.LiveSession.OnSourceEnded | hooks/useLiveSession.ts:196-201 | an ended source leaves the set; speaking stops only when the set is empty |
| LiveSession.LiveSession.OnInterrupted | hooks/useLiveSession.ts:214-220 | every source is stopped and forgotten, the cursor is 0 and the model is silent |
| LiveSession.LiveSession.OnToolCalls | hooks/useLiveSession.ts:153-175 | with a handler, the responses sent are exactly Responses(calls, outcomes); without one, nothing is sent |
| LiveSession.LiveSession.OnClose | hooks/useLiveSession.ts:222-225 | onclose tears down and ends Disconnected |
| LiveSession.LiveSession.OnError | hooks/useLiveSession.ts:226-230 | onerror tears down and ends in Error |
| LiveSession.LiveSession.OnMessage | hooks/useLiveSession.ts:143-221 | a message's transcripts, tool responses and audio are handled in that order; the playback state changes exactly as PlaybackEffect says, so a chunk that fails to decode ends the handler before the interruption |
| LiveSession.LiveSession.OnPlayback | hooks/useLiveSession.ts:177-221 | the playback state changes exactly as PlaybackEffect says, and the new source id is returned only for a decoded chunk on an open output context |
| LiveSession.InterruptThenChunk | hooks/useLiveSession.ts:214-218 | after an interruption the next decoded chunk starts exactly on arrival |
| LiveSession.FrameWhileSpeaking | hooks/useLiveSession.ts:135 | with the current flag, a microphone frame while the model speaks leaves the level at 0.5 |
| LiveSession.StaleFrameWhileSpeaking | hooks/useLiveSession.ts:135 | as written, in a session connected while the model was silent, a microphone frame while the model speaks replaces 0.5 with the microphone level and breaks the speaking-level invariant |
| LiveSession.ScheduleOfEntries | hooks/useLiveSession.ts:203-204 | entry k of a run's schedule is source first + k, started at the rule's k-th start time, for the k-th chunk's duration |
| LiveSession.PlayChunk | hooks/useLiveSession.ts:183-210 | one decoded chunk on an open output context joins the schedule at the rule's start, moves the cursor to its end and sets the speaking state |
| LiveSession.PlayChunks | hooks/useLiveSession.ts:183-210 | the engine schedules a run of chunks at exactly the rule's start times and leaves the cursor at the rule's final cursor |
| ChatHistory.HistoryOf | App.tsx:63 | a vehicle without an entry has an empty history |
| ChatHistory.UpdateHistory | App.tsx:35-40 | one message is appended at the end of one vehicle's history; earlier messages and other vehicles are untouched |
| ChatHistory.Coalesces | App.tsx:66 | a fragment merges into the last message iff the speaker is the same, the message is under 5000 ms old and carries no repair guide |
| ChatHistory.AddTranscript | App.tsx:62-79 | a fragment merges into the last message (text concatenated, timestamp refreshed, length unchanged) iff same speaker, under 5000 ms old and no guide; otherwise exactly one new message is appended |
| ChatHistory.TranscriptKeepsText | App.tsx:66-79 | merged or appended, the history's whole text becomes its old text followed by the fragment |
| ChatHistory.TwoFragments | App.tsx:66-74 | a second fragment merges into the first's message iff same speaker and less than 5000 ms later, and then the message reads both fragments in order |
| ChatHistory.OnTranscript | App.tsx:52-81 | a transcript only changes the selected vehicle's history and is a no-op without a selected vehicle |
| ChatHistory.MakeSteps | App.tsx:96-100 | one unchecked step per step text, in input order |
| ChatHistory.BuildGuide | App.tsx:92-101 | the guide keeps the title and steps; tools default to none; the time defaults to 'Unknown' and is never blank |
| ChatHistory.VoiceToolCall | App.tsx:82-111 | a create_repair_guide call with a selected vehicle appends the guide message and confirms; unmappable steps report failure; anything else returns null |
| ChatHistory.VoiceToolCallEffect | App.tsx:84-110 | the voice handler's result is truthy iff the call is create_repair_guide with a vehicle selected; success adds one model message with an all-unchecked guide to that vehicle only |
| ChatHistory.HistoryForModel | App.tsx:184-189 | the history handed to the text model has no system turn and is no longer than the chat |
| ChatHistory.HistoryForModelAppend | App.tsx:184-189 | the filter keeps order: the history of a concatenation is the concatenation of the histories |
| ChatHistory.HistoryForModelMembers | App.tsx:184-189 | a turn is handed over iff some non-system message carries it |
| ChatHistory.AsksForGuide | App.tsx:206-208 | an answer asks for a repair guide iff its first function call is named create_repair_guide |
| ChatHistory.ReplyMessage | App.tsx:203-248 | the reply message is the guide message if the first call asks for a guide (answer text or a stock sentence naming the guide); the plain answer otherwise; the system error message on failure |
| ChatHistory.ReplyIgnoresLaterCalls | App.tsx:206-208 | only the first function call of an answer is considered |
| ChatHistory.TrimStart | App.tsx:165 | leading white space is removed, and only white space |
| ChatHistory.TrimEnd | App.tsx:165 | trailing white space is removed, and only white space |
| ChatHistory.Trim | App.tsx:165 | the trimmed text is the part of the input between its leading and its trailing white space, and starts and ends with a character that is not white space |
| ChatHistory.TrimBlank | App.tsx:165 | a text trims to nothing iff it is all white space |
| ChatHistory.InitMessage | App.tsx:133-138 | a new vehicle's first message has id 'init' and the system role |
| AppShell.FindVehicle | App.tsx:31 | the selected vehicle is the first one in the list with that id, and none is found iff no vehicle has it |
| AppShell.App.constructor | App.tsx:16-26 | the shell starts with no vehicles, no selection, no histories, live mode off and nothing pending |
| AppShell.App.CurrentHistory | App.tsx:32 | the shown history is the selected vehicle's, and empty when none is selected or the selected vehicle has no entry |
| AppShell.App.SwitchEffect | App.tsx:122-127 | a change of selection while Connected or Connecting disconnects (every held resource released once, every source stopped, silent at volume 0) and leaves live mode; the cursor, counters and other logs stay; otherwise nothing changes |
| AppShell.App.HandleVehicleCreated | App.tsx:129-140 | the vehicle goes to the front of the list, becomes selected, and its history is exactly the init message; a change of selection while connected or connecting tears the session down as disconnect does and leaves live mode |
| AppShell.App.AddVehicle | App.tsx:130-139 | the three state updates of vehicle creation |
| AppShell.App.HandleSelectVehicle | App.tsx:142-144 | selecting a different vehicle while connected or connecting tears the session down as disconnect does and leaves live mode; otherwise live mode and the session are unchanged |
| AppShell.App.HandleNewSession | App.tsx:254-256 | clearing the selection while connected or connecting tears the session down as disconnect does and leaves live mode; otherwise live mode and the session are unchanged |
| AppShell.App.ToggleLiveMode | App.tsx:146-154 | leaving live mode disconnects (resources released, sources stopped, silent) and leaves the cursor, counters and capture flag alone; entering it connects with the speaking flag off, records the selection the session's callbacks will use, and states each outcome of connect in full; live mode stays on when connecting fails |
| AppShell.App.OnTranscript | App.tsx:51-81 | the transcript callback applies the merge-or-append updater to the vehicle selected when connect() ran, not the one selected now |
| AppShell.App.OnToolCall | App.tsx:82-111 | the tool callback applies the voice handler to the vehicle selected when connect() ran and returns its result |
| AppShell.App.SubmitText | App.tsx:163-198 | nothing happens for blank input, no vehicle, or a pending answer. Otherwise the input is cleared, an answer is pending, the user's message is appended, and the model gets the earlier history without system messages |
| AppShell.App.ReceiveReply | App.tsx:200-251 | the answer's message is appended to the request's vehicle and nothing is pending any more |
| AppShell.AskAndAnswer | App.tsx:163-251 | a question and its answer add exactly two messages to the vehicle's history, question first |
| RepairGuideCard.Toggle | components/RepairGuideCard.tsx:12-20 | toggling flips the id's membership and leaves every other id as it was |
| RepairGuideCard.ToggleTwice | components/RepairGuideCard.tsx:12-20 | toggling the same id twice restores the set |
| RepairGuideCard.Progress | components/RepairGuideCard.tsx:32 | the percentage is NaN (None) exactly when the guide has no steps |
| RepairGuideCard.ProgressRounds | components/RepairGuideCard.tsx:32 | the percentage is 100·c/n rounded to the nearest integer, halves up |
| RepairGuideCard.ProgressRange | components/RepairGuideCard.tsx:32 | with c <= n it lies in 0..100, is 0 with nothing checked and 100 with everything checked |
| RepairGuideCard.ProgressMonotone | components/RepairGuideCard.tsx:32 | checking more steps never lowers the percentage |
| RepairGuideCard.Checklist.constructor | components/RepairGuideCard.tsx:9-10 | a card starts with no step and no tool checked |
| RepairGuideCard.Checklist.ToggleStep | components/RepairGuideCard.tsx:12-20 | a step toggle flips that step in the step set only, and only the guide's own steps are ever checked |
| RepairGuideCard.Checklist.ToggleTool | components/RepairGuideCard.tsx:22-30 | a tool toggle flips that tool in the tool set only |
| RepairGuideCard.Checklist.ProgressPercent | components/RepairGuideCard.tsx:32 | the header shows NaN for a guide without steps, otherwise a value in 0..100: 0 with nothing checked, 100 with every step checked |

## Left out

- The Web Audio and device layer is left out because it is foreign I/O: context creation, the analyser node and its wiring, `getUserMedia`, buffer sources, `start`/`stop`. Resources and sources are numbered handles, and the calls made on them are logs.
- The RMS computation (hooks/useLiveSession.ts:132-134) is floating point with `Math.sqrt`. Its result is an input to `OnAudioProcess`.
- PCM encoding, base64 decoding and `decodeAudioData` are in `utils/audioUtils`, which is not part of this model. Sending microphone audio (`sendRealtimeInput`) is network output and is not modelled.
- The remote model (`ai.live.connect`, `ai.chats.create`, `sendMessage`) is a foreign call. Its outcomes are parameters: the session settling, each message, and the text reply or failure.
- Interleaving of asynchronous callbacks is not modelled. Each callback runs atomically, and the text chat is split at its await.
  - The cursor is read at hooks/useLiveSession.ts:183 before the decode awaits at :185, so two overlapping messages could schedule with a stale cursor.
  - The message handler suspends on the tool-call await at :157, and another message (or a source's end) may run before it resumes.
  - These races are hazards the model does not cover.
- LiveSession.LiveSession.OnSessionSettled acquires the session even if a disconnect ran while it was pending. This follows line 234, so the model can hold a session while Disconnected. The model records this but proves nothing about it. That session's messages still reach AppShell.App.OnTranscript and AppShell.App.OnToolCall, which write to the vehicle selected when connect() ran (`vehicleAtConnect`), possibly one no longer shown.
- Connect: setup failures other than a denied microphone are covered only by FailConnect and OnSessionSettled(false). These are a context or processor failing to be created.
- ChatHistory.OnTranscript and ChatHistory.VoiceToolCall use one `now` for the message and for the merge test. The source calls `Date.now()` separately in each place (App.tsx:59, :66, :71 and :91).
- ChatHistory.ReplyMessage takes an answer without text as the empty string. In the source, `result.text` is then `undefined`. The guide branch treats both alike (`responseText || …`). In the plain branch (App.tsx:228-233) the source stores `undefined` as the message text, where the model stores "". A model transcript merged into that message within 5000 ms then reads "undefined…" (App.tsx:68), and the text model is later sent `text: undefined`.
- ChatHistory.BuildGuide assumes a present title and a tool list that is an array. If the title is missing, the source shows the text "undefined". A truthy non-array tool list is stored as is.
- A steps argument that is neither missing nor a list is modelled (`NotAList`). Only its effect is modelled: the thrown TypeError, caught at App.tsx:105 and :240.
- RepairGuideCard.Progress computes the rounding on exact rationals. The source divides and multiplies in floating point first. At an exact .5 boundary the float product can fall just below it, e.g. 57 of 200 steps: 0.285·100 evaluates to 28.499999999999996, shown as 28 where the exact value rounds to 29. Not executed.
- RepairGuideCard.Progress gives None (NaN) for a guide without steps whatever `c` is. The source gives Infinity for `c > 0` there, but Checklist.Valid() keeps the checked steps among the guide's steps, so that input does not arise.
- RepairGuideCard.Checklist.ProgressPercent shows 100 for a fully checked guide only when the step ids are distinct. The source's ids come from `crypto.randomUUID()`.
- Rendering, scrolling, the subscription modal, the TSB search modal and its `handleDiscussTSB` input prefill, the vehicle selector form and the visualiser are user-interface code.
- Unmounting (hooks/useLiveSession.ts:244-246) is just a disconnect.
- AppShell.App.Valid assumes that the model is silent whenever live mode is off. Every shell handler keeps this, but the session's message callbacks are methods of the session and do not see the flag; audio arrives only over a connection that entering live mode opened.
- The systemInstruction and tool declarations passed to the remote model are configuration.

## Findings

| source | as written | input that shows it | evidently intended | confidence | as-written member | corrected member |
|---|---|---|---|---|---|---|
| hooks/useLiveSession.ts:135 | the capture callback tests `isAiSpeaking` as captured when connect() ran (the engine's `speakingAtConnect`). Live mode is only entered while the model is silent, so that copy is false (AppShell.App.ToggleLiveMode). | while the model speaks (level 0.5), a microphone frame with RMS 0.1 sets the level to 0.1 | show the microphone level only while the model is not speaking, by the current flag | high; not executed | LiveSession.LiveSession.OnAudioProcessAsWritten, LiveSession.StaleFrameWhileSpeaking | LiveSession.LiveSession.OnAudioProcess, LiveSession.FrameWhileSpeaking |
