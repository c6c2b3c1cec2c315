# Smart Teacher, modelled in Dafny

Smart Teacher is a web application for Spanish-speaking learners of English. A
learner picks a CEFR level (A1 to C2) and talks into the browser's microphone.
There are two modes:

- **practice**: one recording is sent to the analysis endpoint, which transcribes
  it, asks a chat model for a structured report and returns the report merged
  with the transcription;
- **conversation**: every recording is sent, with the latest ten messages of the
  dialogue, to the conversation endpoint. That endpoint transcribes it, asks the
  chat model for a spoken-style reply, synthesizes the reply at a speed that
  depends on the level, and returns the transcription, the reply and the audio.
  The client appends the user's message and the assistant's message to its log
  and plays the audio.

This project models the core of that system:

- the shared data model and the level table (`types.dfy`);
- the microphone recorder hook as a class whose methods follow pure step
  functions, with a trace semantics over its events (`recorder.dfy`);
- both endpoints as pure functions that return the HTTP response and the
  provider calls made on the way, in order (`conversation_route.dfy`,
  `analyze_route.dfy`);
- the conversation component as a class over its log, its submission flag and
  its one playback slot (`chat.dfy`);
- the home page as a class over mode, level, analysis flag, report and error
  (`page.dfy`).

Support modules model the JavaScript operations the core relies on
(`js_builtins.dfy`: truthiness, `||`, `trim`, `Number.prototype.toString`,
template interpolation of `null`). They also model the response handling the
clients share (`http.dfy`) and the AI provider and runtime parameters
(`provider.dfy`).

The provider and the runtime are parameters. The transcription service, the
chat model and the speech service are functions from request to
`Failed | Returned(value)`. JSON parsing of the history and of the analysis,
base64 encoding and the two system-prompt builders are plain functions. Each
route therefore has one result per choice of provider and runtime, and its
contract holds for every choice. The clock readings a conversation turn takes
are an explicit `ClockReadings` value. Whether the browser grants the
microphone is a `StartOutcome` argument.

Behaviour of the code that is easy to misread:

- `startRecording` has no guard against a second start. A start while capturing
  abandons the running recorder and its stream, which stays held; the model
  counts it in `strandedStreams`.
- A history that parses to something other than an array (`{}`, `null`, `5`)
  passes the audio check and the transcription call; building the chat input
  then throws, and the answer is the generic 500
  (`ConversationRoute.PostNonArrayHistory`).
- The URL of the previous recording is not revoked on a restart. Only
  `resetRecording` revokes it.
- `resetRecording` works from any state and does not stop a running recorder.
- The speech speeds lie in [0.85, 1.0], and C1 and C2 both speak at 1.0.
- Both message timestamps of a turn come from separate clock readings. Nothing
  makes them strictly increasing. The two ids of a turn are guaranteed to differ
  when the clock does not go back between the first and third reading; they
  coincide only when it goes back by exactly 1 ms (`Chat.TurnIdsDistinct`).
- Ids are not unique across turns either: the assistant id of one turn (third
  reading + 1) can equal the user id of the next. `Chat.AtMostOneMarked`
  therefore assumes distinct ids, which the component does not maintain; with a
  repeated id, two bubbles can show as playing at once.
- The practice-mode submit handler (`handleSubmit`, src/app/page.tsx:31-59) has
  no in-flight check of its own. Only the submit button, disabled while analysing
  (src/components/AudioRecorder.tsx:132), prevents a second submission;
  `Page.Home.BeginAnalyze` models the handler. The conversation component checks
  its processing flag in the handler itself.
- A missing analysis content and an unparseable one give the same 500 answer as
  a provider failure.

## Model

| member | source | states |
|---|---|---|
| Http.FailureMessage | src/components/ConversationChat.tsx:81-114 | `throw new Error(errorData.error \|\| fallback)` then `err instanceof Error ? err.message : unexpected`: a non-OK answer shows the server's error string when non-empty, else the fallback, so never an empty message when the fallback is not empty; a thrown `Error` shows its message, anything else the unexpected-error text |
| Http.ReceiveConversation | src/components/ConversationChat.tsx:76-86 | a non-OK status reads as a failure carrying the body's `error` string when it has one; an OK status with a conversation body reads as that data |
| Http.ReceiveFeedback | src/app/page.tsx:42-53 | a non-OK status reads as a failure carrying the body's `error` string when it has one; an OK status with a report reads as that report |
| JsBuiltins.FirstTruthy | src/app/page.tsx:176-183 | `a \|\| b` on two optional strings: nothing exactly when neither is non-empty, else the first non-empty one |
| JsBuiltins.TrimStart | src/app/api/conversation/route.ts:42 | the result is a suffix of the input, every dropped character is ECMAScript white space or a line terminator, and the result does not start with one |
| JsBuiltins.TrimEnd | src/app/api/conversation/route.ts:42 | the mirror image: a prefix, only white space dropped, and the result does not end with white space |
| JsBuiltins.BlankIffAllTrimmable | src/app/api/conversation/route.ts:42 | `s.trim() === ''` holds exactly when every character of `s` is white space or a line terminator |
| JsBuiltins.NatToDecimal | src/components/ConversationChat.tsx:90 | `toString` of a non-negative integer is a non-empty string of decimal digits, of two or more digits from 10 on |
| JsBuiltins.NatToDecimalInjective | src/components/ConversationChat.tsx:90-101 | different clock readings give different message ids |
| Types.ParseLevel | src/types/index.ts:1 | a string is read as a level only when it is exactly that level's code |
| Types.LevelCodeRoundTrip | src/types/index.ts:1 | reading a level's code gives the level back, and a string reads as a level exactly when it is that level's code |
| Types.LevelsTableShape | src/types/index.ts:64-107 | the level table has six rows, in rank order A1..C2, one per level, with no level repeated |
| Types.FindLevel | src/components/ConversationChat.tsx:42 | `LEVELS.find`: no result exactly when no row has the level; otherwise the first row with it |
| Types.FindLevelAt | src/components/ConversationChat.tsx:42 | `find` returns a row that has the level when no earlier row has it |
| Types.LookupAlwaysFinds | src/app/page.tsx:74 | every level is found in the table, in the row of its rank |
| Recorder.StepsPreserveValid | src/hooks/useAudioRecorder.ts:7-81 | each handler keeps the recorder invariant: recording only while the device is held, blob and URL set together, no URL while capturing, the URL still live, no empty chunk buffered |
| Recorder.StartEffects | src/hooks/useAudioRecorder.ts:17-63 | a granted start clears the blob, URL and error, sets recording, empties the buffer and holds the device; a denial changes only the error; a recorder that fails to construct leaves its stream held |
| Recorder.StopGuarded | src/hooks/useAudioRecorder.ts:65-69 | stop changes something exactly when a recorder is capturing and the state says recording, and then it only requests the stop |
| Recorder.CompleteEffects | src/hooks/useAudioRecorder.ts:34-47 | completion releases the stream and stores a `audio/webm` blob of the buffered chunks concatenated, whose size is the sum of their sizes, under a new URL; recording ends and the error is kept |
| Recorder.ResetIdempotent | src/hooks/useAudioRecorder.ts:71-81 | reset gives the initial record, revokes the current URL, does not touch the device, and twice is the same as once |
| Recorder.StartKeepsOldUrlAlive | src/hooks/useAudioRecorder.ts:50-56 | a restart drops the previous recording's URL from the record without revoking it |
| Recorder.NonEmptyKeepsBytes | src/hooks/useAudioRecorder.ts:28-35 | skipping empty chunks does not change the bytes of the blob |
| Recorder.RunPreservesValid | src/hooks/useAudioRecorder.ts:7-81 | every sequence of handler events keeps the recorder invariant |
| Recorder.DeliveriesAppendInOrder | src/hooks/useAudioRecorder.ts:28-32 | delivering chunks appends exactly the non-empty ones, in arrival order, and changes nothing else |
| Recorder.ReleasedUntilNextGrant | src/hooks/useAudioRecorder.ts:34-47 | once no stream is held by a running recorder, none is until a start is granted |
| Recorder.SessionCapturesChunks | src/hooks/useAudioRecorder.ts:17-63 | start, chunks, stop and completion leave a blob of exactly the non-empty chunks' bytes in order, a live URL, recording off, no error and the device released |
| Recorder.ThreeChunkScenario | src/hooks/useAudioRecorder.ts:28-47 | chunks of 10, 10 and 5 bytes give a 25-byte blob and recording off |
| Recorder.AudioRecorder.constructor | src/hooks/useAudioRecorder.ts:7-15 | the hook starts not recording, with no blob, URL or error, an empty buffer and no recorder |
| Recorder.AudioRecorder.StartRecording | src/hooks/useAudioRecorder.ts:17-63 | `startRecording` keeps the invariant and moves the state by the start step for the given outcome |
| Recorder.AudioRecorder.OnDataAvailable | src/hooks/useAudioRecorder.ts:28-32 | the data handler keeps the invariant and buffers the chunk only if it is non-empty |
| Recorder.AudioRecorder.StopRecording | src/hooks/useAudioRecorder.ts:65-69 | `stopRecording` keeps the invariant and follows the guarded stop step |
| Recorder.AudioRecorder.OnStop | src/hooks/useAudioRecorder.ts:34-47 | the stop handler, called only for a running recorder, keeps the invariant and follows the completion step |
| Recorder.AudioRecorder.ResetRecording | src/hooks/useAudioRecorder.ts:71-81 | `resetRecording` keeps the invariant and follows the reset step |
| ConversationRoute.SpeechSpeedProperties | src/app/api/conversation/route.ts:10-17 | the speed for a level code is that level's table entry; any other value gives 1.0; every speed lies in [0.85, 1.0] and does not decrease as the level rises |
| ConversationRoute.ParsedHistory | src/app/api/conversation/route.ts:24-26 | a missing or empty history field reads as the empty history: only a non-empty field can fail to parse, parse to a non-array, or give a non-empty history |
| ConversationRoute.HistoryMessages | src/app/api/conversation/route.ts:54-57 | each history item becomes one chat message with its role and content, in order |
| ConversationRoute.ChatInput | src/app/api/conversation/route.ts:52-59 | the chat input is the system prompt, then the history in order, then the transcription as one user message |
| ConversationRoute.ChatAndSpeech | src/app/api/conversation/route.ts:49-96 | after a usable transcription and an array history: the transcription call, then the chat call with the assembled input, then at most the speech call; the answer is the generic failure or a 200 with a conversation body, and it is 200 exactly when the completion has a choice and the speech returns |
| ConversationRoute.Post | src/app/api/conversation/route.ts:19-97 | provider calls run in stage order, once each; status is 200, 400 or 500; 200 exactly with a conversation body; every 500 is the generic failure |
| ConversationRoute.PostEarlyExits | src/app/api/conversation/route.ts:21-33 | a history that does not parse fails with the generic 500 before any call, even without audio; missing audio is a 400 with no call, and only missing audio (a history that parses to a non-array passes this check); every 400 is one of the two fixed messages |
| ConversationRoute.FromTranscription | src/app/api/conversation/route.ts:35-59 | once the transcription stage is reached: a failed transcription is the generic 500 after that call alone; blank text is the 400 no-speech answer after that call alone; a non-blank transcription with a non-array history is the generic 500 after that call alone; with an array history the chat stage runs with the assembled request; the calls stay in stage order |
| ConversationRoute.PostNonArrayHistory | src/app/api/conversation/route.ts:26-54 | a history that parses to a non-array passes the audio check, costs the transcription call and then fails with the generic 500 |
| ConversationRoute.PostNoSpeech | src/app/api/conversation/route.ts:35-47 | a blank or empty transcription, and only that, gives the 400 no-speech answer, after the transcription call alone |
| ConversationRoute.PostChatStage | src/app/api/conversation/route.ts:49-66 | the chat stage runs exactly when the history parsed to an array, the audio is present and the transcription returned non-blank text, and its input is the system prompt, the history and the transcription |
| ConversationRoute.PostSuccess | src/app/api/conversation/route.ts:61-89 | a 200 means all three stages ran in order and returned, and the body is the transcription, the first choice's content or empty, and the base64 of the speech |
| ConversationRoute.PostOkIff | src/app/api/conversation/route.ts:35-96 | the answer is 200 exactly when the history is an array, the audio is present and the transcription, completion and speech all return usable output |
| ConversationRoute.PostSucceeds | src/app/api/conversation/route.ts:61-89 | when every stage returns, the answer is the 200 body of transcription, reply and base64 audio, after exactly the three calls in order |
| AnalyzeRoute.Merge | src/app/api/analyze/route.ts:58-61 | the report is the analysis with the transcription added; a `transcription` key in the analysis wins |
| AnalyzeRoute.MergeRoundTrip | src/app/api/analyze/route.ts:56-61 | merging a report's transcription into its analysis part gives the report back |
| AnalyzeRoute.AnalyzeAndParse | src/app/api/analyze/route.ts:36-70 | after a usable transcription: exactly the transcription call and the JSON-mode analysis call; the answer is the generic failure or a 200 with a report, and it is 200 exactly when the first choice has content that parses |
| AnalyzeRoute.Post | src/app/api/analyze/route.ts:9-71 | calls in stage order, at most two; status 200, 400 or 500; 200 exactly with a report; every 500 is the generic failure |
| AnalyzeRoute.PostEarlyExits | src/app/api/analyze/route.ts:15-34 | missing audio, and only that, is a 400 with no call; a blank or empty transcription, and only that, is the 400 no-speech answer after the transcription call alone; every 400 is one of the two fixed messages |
| AnalyzeRoute.PostAnalysisStage | src/app/api/analyze/route.ts:36-49 | the analysis stage runs exactly after a usable transcription, with the system prompt and the level's request text in JSON mode |
| AnalyzeRoute.PostSuccess | src/app/api/analyze/route.ts:51-63 | a 200 means the first choice had content that parsed, and the report is the transcription merged with that analysis |
| AnalyzeRoute.UnusableAnalysisFails | src/app/api/analyze/route.ts:51-56 | empty or missing analysis content, or content that does not parse, gives the generic 500 |
| AnalyzeRoute.PostOkIff | src/app/api/analyze/route.ts:22-70 | the answer is 200 exactly when the audio is present, the transcription is non-blank and the first choice's content parses as a report |
| AnalyzeRoute.PostSucceeds | src/app/api/analyze/route.ts:51-63 | when every stage returns usable output, the answer is the 200 report merging the transcription into the parsed analysis, after exactly the two calls |
| Chat.Projected | src/components/ConversationChat.tsx:68-73 | every message becomes its id, role, content and timestamp, in order, without the audio URL |
| Chat.HistoryForApi | src/components/ConversationChat.tsx:68-73 | the history sent is the latest min(10, n) messages of the log, oldest first, projected |
| Chat.WindowAfterTurn | src/components/ConversationChat.tsx:68-108 | after a turn the window ends with the new user and assistant messages, and the rest of it is the latest part of the previous window |
| Chat.OldWindowSuffix | src/components/ConversationChat.tsx:68-73 | the window after two appended messages, less those two, is a suffix of the previous window |
| Chat.TurnAppendsTwo | src/components/ConversationChat.tsx:88-108 | a received reply appends exactly the user message with the transcription and no audio, then the assistant message with the reply and its data URL; any failure leaves the log unchanged |
| Chat.TurnIdsDistinct | src/components/ConversationChat.tsx:90-101 | the two new messages have different ids whenever the clock does not go back between its readings |
| Chat.AtMostOneMarked | src/components/ConversationChat.tsx:190 | in a log with distinct ids, at most one bubble shows as playing |
| Chat.TurnEndToEnd | src/components/ConversationChat.tsx:56-119 | through the conversation endpoint, a turn either leaves the log alone or appends the user message and the assistant message, in that order, the user's holding the transcription; the log grows by two exactly on a 200, which happens exactly when every provider stage returns; the chat stage sees window plus two messages, at most twelve; blank speech arrives as the no-speech error and adds nothing |
| Chat.FirstTurnScenario | src/components/ConversationChat.tsx:56-119 | from an empty log, "I sink so" and a reply give a log of exactly the user's message and then the assistant's |
| Chat.ConversationChat.Banner | src/components/ConversationChat.tsx:219-226 | `error \|\| recorderError`: nothing shows exactly when neither is non-empty; otherwise the component's own error wins over the recorder's |
| Chat.AnswerReachesClient | src/components/ConversationChat.tsx:76-86 | every conversation answer reaches the component as its data exactly on a 200, and otherwise as a non-OK response whose message shown is the server's own error string |
| Chat.ConversationChat.constructor | src/components/ConversationChat.tsx:24-40 | the component starts with an empty log, nothing processing or playing, no error and a fresh recorder |
| Chat.ConversationChat.BeginSubmit | src/components/ConversationChat.tsx:56-74 | no blob, or a submission in flight, changes nothing; otherwise processing starts, the error is cleared and the form holds the blob, the level code and the history window |
| Chat.ConversationChat.FinishSubmit | src/components/ConversationChat.tsx:76-118 | the log becomes the log after the outcome; a failure stores its message; processing ends; the recorder is reset; a received reply is played |
| Chat.ConversationChat.AutoSubmit | src/components/ConversationChat.tsx:50-54 | submission starts exactly when a blob exists, recording is off and nothing is in flight; the log, playback slot and audio source are untouched |
| Chat.ConversationChat.MicButton | src/components/ConversationChat.tsx:284-285 | the microphone button stops a running recording and otherwise starts one |
| Chat.ConversationChat.PlayAudio | src/components/ConversationChat.tsx:121-128 | with the audio element mounted, the source becomes the URL and the message takes the single playing slot; the log and error are untouched |
| Chat.ConversationChat.StopAudio | src/components/ConversationChat.tsx:130-137 | with the audio element mounted, the playing slot is emptied; nothing else changes |
| Chat.ConversationChat.OnPlaybackEnded | src/components/ConversationChat.tsx:331-338 | the `ended` and `pause` events empty the playing slot |
| Chat.ConversationChat.ClearConversation | src/components/ConversationChat.tsx:139-143 | the log and the error are emptied and playback stops; the processing flag and the audio source are untouched |
| Chat.ConversationChat.ToggleBubble | src/components/ConversationChat.tsx:390-394 | a bubble that shows as playing stops; any other assistant bubble with audio starts playing and shows as playing; the log, error and processing flag are untouched, and the audio source changes only when playback starts |
| Page.View | src/app/page.tsx:113-125 | conversation mode shows the chat; practice mode shows the report exactly when one is held, and the recorder otherwise |
| Page.PracticeEndToEnd | src/app/page.tsx:31-59 | through the analysis endpoint, the page receives a report exactly on a 200, which happens exactly when every provider stage returns usable output, and then it is the transcription merged with the parsed analysis; blank speech shows the no-speech message; a failed transcription shows the generic failure |
| Page.Home.CurrentLevel | src/app/page.tsx:74 | the level line is exactly the selected level's row of the table, whose description and colours the page shows |
| Page.Home.Banner | src/app/page.tsx:176-183 | `error \|\| recorderError`: nothing shows exactly when neither is non-empty; otherwise the page's own error wins over the recorder's |
| Page.AnswerReachesClient | src/app/page.tsx:42-55 | every analysis answer reaches the page as a report exactly on a 200, and otherwise as a non-OK response whose message shown is the server's own error string |
| Page.Home.constructor | src/app/page.tsx:14-29 | the page starts in conversation mode at B1, not analyzing, with no report, no error, a fresh recorder and the chat mounted |
| Page.Home.BeginAnalyze | src/app/page.tsx:31-45 | without a blob nothing changes; otherwise analysis starts, the error is cleared and the form holds the blob and the level, with no in-flight guard |
| Page.Home.FinishAnalyze | src/app/page.tsx:47-58 | a report replaces the feedback; a failure stores its message; analysis ends; the recording is kept |
| Page.Home.NewRecording | src/app/page.tsx:61-65 | the report and error are cleared and the recorder is reset, so practice mode shows the recorder again |
| Page.Home.ChangeMode | src/app/page.tsx:67-72 | the mode changes, report and error are cleared and the recorder is reset; the chat mounts fresh on entering conversation mode and is dropped on leaving |
| Page.Home.SelectLevel | src/app/page.tsx:107-110 | only the selected level changes |

## Left out

- Network transport, `FormData` and `fetch` are not modelled. A request is the `Form` record and a response the `Response` record.
- JSON parsing of the history and of the analysis is a runtime parameter. JSON serialization of the history is a parameter of the end-to-end lemmas. A `Date` timestamp goes through JSON as a string; the model keeps it as a number.
- Base64 encoding is a runtime parameter.
- The system prompts are runtime parameters. The model does not reproduce their text, nor the per-level guidance tables in them.
- The provider's model names, voice, response format, temperature and token limit are not modelled. Only the inputs that change the outcome are: the file, the messages, the JSON-mode flag, the text and the speed.
- Logging to the console in the catch blocks is left out.
- The audio element's play promise and its rejection are left out, as are `currentTime` and the actual sound.
- Callbacks that a replaced browser recorder still delivers after a restart are not modelled. A restart while the old recorder is still capturing strands its stream, which is counted in `strandedStreams`. A restart while the old recorder is stopping is not counted anywhere, and its pending `onstop` (src/hooks/useAudioRecorder.ts:34-47) is dropped. In the code that callback would still stop the old tracks and overwrite the new record with `isRecording: false` and a blob of the new buffer.
- Switching from conversation to practice mode drops the chat component with its recorder. A recorder still capturing at that moment keeps its microphone stream, because the hook has no unmount cleanup (src/hooks/useAudioRecorder.ts:7-81). The model counts that stream nowhere, not even in `strandedStreams`.
- History arrays whose items have another role or shape are not modelled; the model's `Items` holds only user and assistant messages. In the code a `null` item throws at `msg.role` (src/app/api/conversation/route.ts:55-56) after the transcription call, which gives the generic 500; a non-null item with another role is forwarded unchecked by the cast at route.ts:55.
- A `mediaRecorder.start()` that throws is not modelled: `StartOutcome` has no case for it. In the code the new recorder and an empty buffer are already installed (src/hooks/useAudioRecorder.ts:25-26), the catch sets only the error (useAudioRecorder.ts:57-62), and `isRecording` keeps its previous value.
- The scroll-into-view effect and all animation and styling are left out.
- Presentation-only files are not part of this model: FeedbackDisplay, LevelSelector, ModeSelector, AudioRecorder and the layout.
- React's batching of state updates and its re-renders are flattened. Each handler is one atomic method.
- A form field that holds a string where a file is expected is not modelled. The audio field is either a blob or absent.
- A `level` field that is not one of the six codes is passed into the prompts and the analysis request text as it is. Only the speed lookup interprets it; inherited object keys such as `constructor` in that lookup are not modelled.
- Score ranges are not enforced, because the source does not check the report it receives.
- Chat.ConversationChat.OnPlaybackEnded: models the `ended` and `pause` handlers as one method, because they have the same body.
- AnalyzeRoute.UnusableAnalysisFails: analysis content that parses as JSON but not as a report (`{}`, `5`, `null`) is outside the model. `parseAnalysis` yields a complete analysis or nothing. The code answers 200 with the transcription and whatever keys the value had, because the cast at src/app/api/analyze/route.ts:56 checks nothing.
