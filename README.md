# Isha voice-chat client: press-to-talk session and endpoint configuration

This project models the logic of a small voice-chat web client. Most of the
client is animation markup. Two parts hold real logic.

- **The press-to-talk session and the conversation log** (`src/App.jsx`).
  Pressing the microphone button asks for the microphone. If access is
  granted, the client starts sampling the audio level every animation frame,
  starts a recorder and a speech recogniser, and sets the `isRecording` and
  `isListening` flags. Each recogniser callback replaces the working
  transcript with the first alternatives of all results so far, joined
  together. Releasing the button ends the recording. If the transcript is not
  blank after trimming, it becomes a user message. The log as it was
  *before* that message is serialised into a history payload and POSTed to
  the backend. Exactly one assistant message follows: the backend's reply
  when the response is ok, otherwise a fallback text that quotes the
  transcript.
- **The endpoint configuration** (`src/api.js`). A two-entry table of base
  URLs, the selected environment (`production`), two environment flags, and
  `getApiEndpoint`. That function joins a path onto the base URL after
  removing at most one leading slash.

Modules:

- `Api` models `src/api.js`.
- `JsText` models the JavaScript string behaviour the client relies on:
  `String.prototype.trim`, with ECMAScript's WhiteSpace and LineTerminator
  characters, and the decimal `toString()` of an integer Number.
- `Recognition` models the `onresult` join.
- `Audio` models the level formula of `updateAudioLevel`.
- `Conversation` models the message record, the initial greeting, the
  history mapping, the request body, and the assistant reply or fallback.
- `Session` models the component state as a value, `SessionState`. Each
  handler is a transition function on it (`Started`, `Sampled`, `Recognized`,
  `Stopped`), and the lemmas state what each handler promises.
- `ChatApp.App` is the component as a class. Its fields are the state
  variables and refs. Each method updates them in place and is proved equal
  to the matching transition function.

The browser is replaced by inputs:

- how far a press gets (`Microphone`): the permission is refused, the
  recorder's constructor throws, the recorder's `start()` throws, or the
  recorder runs;
- whether `SpeechRecognition` exists;
- the byte frequency bins of each animation frame;
- the recogniser's result list;
- the outcome of the POST (`Exchange`: `Ok(data)` or `Failed`);
- two clock readings. `now` is read at release. `replyNow` is read after the
  response or failure.

The model follows the code in these places, where the code differs from
the intended design:

- Release never stops the recogniser. `recognizers` counts recognisers
  started and is never decreased.
- A whitespace-only transcript is not cleared, because the clearing
  statement sits inside the non-blank branch (src/App.jsx:143).
- Press has no already-recording guard. A second press starts a second
  sampling loop. Release cancels only the loop whose frame id is in the ref,
  so one loop goes on setting the level after recording has ended
  (`Session.DoublePressLeavesALoop`).
- When `SpeechRecognition` does not exist, its constructor throws only
  after both flags have been raised. The session then records with no
  recogniser.
- The POST goes to the literal `http://localhost:5000/chat`, not to
  `getApiEndpoint('/chat')` (`Session.ChatUrlIsNotConfiguredEndpoint`).
- An ok reply with no usable `timestamp` stores an Invalid Date. After that,
  every release with a non-blank transcript throws `RangeError` from the
  history mapping inside the `try`: the mapping sits inside the non-blank
  branch (src/App.jsx:91). No request is sent and the fallback reply is
  appended (`Conversation.InvalidDatePoisonsHistory`,
  `Session.StopRepliesWithFallback`). A release with a blank transcript never
  builds the history and is unaffected.
- When the microphone is granted but the recorder's constructor or its
  `start()` throws (src/App.jsx:49-50), the sampling loop has already begun
  and the audio context is open, but neither flag is raised. A later release
  is then a no-op, so that loop is never cancelled
  (`Session.FailedRecorderLeavesALoop`). When `start()` is what throws, the
  ref keeps the new, stopped recorder. If the session was already recording,
  it stays recording but now holds that stopped recorder. The invariant
  therefore only asks that a recording session hold some recorder.

## Model

| member | source | states |
|---|---|---|
| `Api.ApiUrl` | src/api.js:3-12 | the configured base URL is the `production` entry of the table, `https://isha-backend.onrender.com` |
| `Api.EnvironmentFlagsExclusive` | src/api.js:15-16 | `isDevelopment` and `isProduction` never both hold; exactly one holds for each key of the table; the configured environment is production |
| `Api.CleanPath` | src/api.js:21 | a leading slash, if present, is the only thing removed; a path without one is unchanged |
| `Api.GetApiEndpoint` | src/api.js:19-23 | every endpoint starts with the base URL and one slash, and the rest is the cleaned path |
| `Api.EndpointShape` | src/api.js:21-22 | the endpoint is base URL + `/` + cleaned path, one character shorter than base + `/` + path when the path starts with `/` |
| `Api.EndpointIgnoresOneLeadingSlash` | src/api.js:21 | `getApiEndpoint("/" + s) == getApiEndpoint(s)` when `s` does not start with `/` |
| `Api.EndpointKeepsSecondSlash` | src/api.js:21 | only one slash is stripped: `"//" + s` gives base URL + `"//" + s` |
| `Api.EndpointOfRoot` | src/api.js:22 | the empty path and `"/"` both give the base URL followed by `/` |
| `Api.EndpointInjective` | src/api.js:21-22 | two paths give the same endpoint exactly when their cleaned paths are equal |
| `JsText.TrimStartSpec` | src/App.jsx:91 | the leading part that trim drops is all whitespace, and the kept suffix starts with a non-whitespace character |
| `JsText.TrimEndSpec` | src/App.jsx:91 | the trailing part that trim drops is all whitespace, and the kept prefix ends with a non-whitespace character |
| `JsText.TrimIsSlice` | src/App.jsx:91 | `trim()` keeps one contiguous slice, with whitespace only on either side of it and no whitespace at its ends |
| `JsText.Trim` | src/App.jsx:91 | `trim()` never makes a string longer; its full shape is stated by `JsText.TrimIsSlice` |
| `JsText.IsBlank` | src/App.jsx:91 | `!transcript.trim()` holds exactly when every character of the transcript is whitespace |
| `JsText.BlankIffAllWhitespace` | src/App.jsx:91 | `transcript.trim()` is empty exactly when every character of the transcript is whitespace |
| `JsText.NatToString` | src/App.jsx:114 | the decimal rendering of a non-negative id is a non-empty run of digits with no leading zero |
| `JsText.IntToString` | src/App.jsx:114 | the rendering of an integer starts with a digit exactly when the integer is non-negative |
| `JsText.ParseNatToString` | src/App.jsx:114 | the digits of n read back as n |
| `JsText.IntToStringInjective` | src/App.jsx:114 | distinct integer ids render to distinct strings |
| `Recognition.JoinTranscript` | src/App.jsx:60-64 | the joined transcript of no results is empty; otherwise it starts with the first result's best alternative and ends with the last result's best alternative |
| `Recognition.JoinAppend` | src/App.jsx:61-63 | joining a concatenation of result lists is the concatenation of the joins |
| `Recognition.JoinAt` | src/App.jsx:61-63 | each result's first alternative appears verbatim, in order, between the joins of the results before and after it |
| `Recognition.JoinIgnoresOtherAlternatives` | src/App.jsx:62 | only the first alternative of each result reaches the transcript |
| `Audio.Sum` | src/App.jsx:43 | the sum of the bins is between 0 and 255 times their count; it is 0 exactly when every bin is 0, and at the maximum exactly when every bin is 255 |
| `Audio.Level` | src/App.jsx:37-44 | over the 128 bins of an FFT of size 256, `average / 255` lies in [0,1]; it is 0 exactly for silence and 1 exactly when every bin is full |
| `Conversation.Greeting` | src/App.jsx:9-11 | the initial log entry is from Isha, has id 1 and a valid Date |
| `Conversation.GreetingHistory` | src/App.jsx:9-11 | the history of the initial log is one `assistant` entry with the greeting text under `message_id` `"1"` |
| `Conversation.FallbackText` | src/App.jsx:136 | the fallback text quotes the transcript verbatim at a fixed offset, between a fixed prefix and suffix |
| `Conversation.FallbackTextInjective` | src/App.jsx:136 | different transcripts give different fallback texts |
| `Conversation.NumIdStringInjective` | src/App.jsx:114 | two numeric ids have the same `message_id` only when they are equal |
| `Conversation.IdString` | src/App.jsx:114 | a string id is sent as it is; a numeric id as a non-empty rendering that starts with a digit exactly when the id is non-negative |
| `Conversation.EntryOf` | src/App.jsx:110-115 | one history entry: role `user` exactly for user messages and `assistant` for all others, the text as content, the Date's instant, the id as a string |
| `Conversation.IsTruthy` | src/App.jsx:122 | `data.message_id` is used exactly when it is present and neither `0` nor `""` |
| `Conversation.History` | src/App.jsx:110-115 | the mapping succeeds exactly when every Date in the log is valid; it then has the log's length and one entry per message, in order |
| `Conversation.HistoryMirrorsLog` | src/App.jsx:110-115 | each history entry has role `user` exactly for user messages and `assistant` otherwise, the text as content, the Date's instant and the id as a string |
| `Conversation.InvalidDatePoisonsHistory` | src/App.jsx:113 | once the log holds an Invalid Date, the history of any longer log fails too |
| `Conversation.Request` | src/App.jsx:102-117 | a request exists exactly when the history can be built; it goes to the literal URL with the untrimmed transcript, user name `User` and that history |
| `Conversation.UserMessage` | src/App.jsx:92-97 | the user message carries the untrimmed transcript, sender `user`, and the release clock as id and Date |
| `Conversation.AssistantReply` | src/App.jsx:119-141 | the message appended after the exchange is always from Isha |
| `Conversation.ReplyOnSuccess` | src/App.jsx:119-127 | on an ok response the reply text is `data.response`, the id is `data.message_id` when truthy and the clock + 1 otherwise, and the Date is the one built from `data.timestamp` |
| `Conversation.ReplyOnFailure` | src/App.jsx:128-141 | on a failed exchange, or when no request could be built, the reply is the fallback text quoting the transcript, with id clock + 1 and the current Date |
| `Session.Mounted` | src/App.jsx:7-19 | the component mounts valid, not recording, with an empty transcript, level 0 and the greeting as the only message |
| `Session.Closed` | src/App.jsx:86-88 | closing keeps an empty context ref empty and leaves an existing context closed |
| `Session.Started` | src/App.jsx:27-73 | a press keeps the invariant and never touches transcript or log; unless the recorder runs, the flags and the recogniser count are unchanged |
| `Session.Sampled` | src/App.jsx:41-46 | a frame keeps the invariant and changes nothing but the level |
| `Session.Recognized` | src/App.jsx:60-64 | a recognition result keeps the invariant and changes nothing but the transcript, which becomes the join of the results |
| `Session.CanStop` | src/App.jsx:76 | under the invariant, release acts exactly when the session is recording |
| `Session.StopRequest` | src/App.jsx:91-117 | a release sends a request exactly when the session is recording, the transcript has a non-whitespace character and every Date in the log is valid; it carries the untrimmed transcript and the history of the log before the new user message |
| `Session.Released` | src/App.jsx:77-88 | the unconditional part of a release keeps the invariant, ends recording, cancels one live sampling loop, and leaves transcript, log and recognisers alone |
| `Session.Finalized` | src/App.jsx:90-144 | the transcript part of a release keeps the invariant and only appends: two messages and an empty transcript for a non-blank transcript, nothing at all for a blank one |
| `Session.Stopped` | src/App.jsx:75-146 | a release is a no-op unless it can stop; it keeps the invariant, leaves the session not recording and only appends to the log |
| `Session.StartOutcome` | src/App.jsx:27-73 | a refused microphone changes nothing; once access is granted the level comes from the first frame (within [0,1]), one sampling loop is added and the context is open, whatever the recorder does; a running recorder raises both flags and makes the session stoppable |
| `Session.FailedRecorderLeavesALoop` | src/App.jsx:41-52 | a press whose recorder's constructor or `start()` throws leaves the session idle with a live sampling loop that release does not cancel and whose next frame gives a non-zero level |
| `Session.RecognitionReplacesTranscript` | src/App.jsx:60-64 | a recognition result sets the transcript to the join of the results, whatever the old transcript was, and leaves the log alone |
| `Session.StopWhenIdleIsNoOp` | src/App.jsx:76 | release without a recorder or while not recording changes nothing and sends nothing |
| `Session.StopEndsRecording` | src/App.jsx:77-88 | release of a recording session clears both flags, sets the level to 0, stops the recorder and closes the context; the recogniser count is unchanged |
| `Session.StopWithBlankTranscript` | src/App.jsx:90-144 | with a whitespace-only transcript no request is sent, no message is appended and the transcript is kept |
| `Session.StopWithTranscript` | src/App.jsx:90-144 | with a non-blank transcript the log grows by exactly two: earlier entries unchanged, then the user's untrimmed transcript, then one Isha message; the transcript becomes empty |
| `Session.StopSendsPriorHistory` | src/App.jsx:102-117 | the request carries the transcript and a history with the length and order of the log before the new user message, with role `user` exactly for user messages and `assistant` for all others, content and id per entry |
| `Session.StopRepliesFromBackend` | src/App.jsx:119-127 | after an ok exchange the appended assistant message has the backend's text and, when truthy, the backend's id |
| `Session.StopRepliesWithFallback` | src/App.jsx:128-141 | after a failed exchange, or when the history throws, the assistant message is the fallback text, which contains the transcript verbatim |
| `Session.StepKeepsValid` | src/App.jsx:27-146 | every handler keeps the flags equal, the level in [0,1], the greeting first and a recorder and a live sampling loop while recording, and only appends to the log |
| `Session.RunIsAppendOnly` | src/App.jsx:293-297 | over any sequence of presses, frames, results and releases the invariant holds and the log only grows |
| `Session.DoublePressLeavesALoop` | src/App.jsx:27-88 | press, press, release leaves the session idle with one sampling loop still alive, and that loop's next frame gives a non-zero level |
| `Session.ChatUrlIsNotConfiguredEndpoint` | src/App.jsx:102 | the exchange URL is neither `getApiEndpoint('/chat')` nor the development base URL + `/chat` |
| `ChatApp.App.constructor` | src/App.jsx:7-19 | the new component's state is `Mounted` |
| `ChatApp.App.StartRecording` | src/App.jsx:27-73 | the new state is `Started` of the old state and the inputs, and the invariant holds |
| `ChatApp.App.SampleAudioLevel` | src/App.jsx:41-46 | one frame of a live loop sets the level to that frame's `Level` and changes nothing else |
| `ChatApp.App.OnRecognitionResult` | src/App.jsx:60-65 | the new state is `Recognized`: only the transcript changes, to the join of the results |
| `ChatApp.App.StopRecording` | src/App.jsx:75-146 | the new state is `Stopped` of the old state, and the returned request is the one the release sends |
| `ChatApp.App.ReleaseCapture` | src/App.jsx:77-88 | called only on a recording component; the new state is `Released` of the old state and the invariant holds |
| `ChatApp.App.FinalizeTranscript` | src/App.jsx:90-144 | called only right after `ReleaseCapture` on a recording component; the new state is `Finalized` of the old state, the invariant holds, and a request is sent exactly for a non-blank transcript |
| `ChatApp.ConversationTurn` | src/App.jsx:27-146 | press, result, release on a fresh component gives the greeting, the user's words and exactly one reply (the backend's text or the fallback quoting the words); the request carries the greeting as its whole history |

## Left out

- Rendering, animation, the floating elements and the welcome-screen timer (src/App.jsx:21-25, 148-358) are presentation only.
- The browser capabilities (`getUserMedia`, `AudioContext` and the analyser, `MediaRecorder`, `SpeechRecognition`, `requestAnimationFrame`, `alert`, `console`) become inputs or flags. Their effect on component state is modelled for these cases: a refused microphone, a recorder whose constructor or `start()` throws, and a missing `SpeechRecognition`.
- Session.Started: an exception thrown by the `AudioContext` constructor, `createAnalyser`, `createMediaStreamSource` or `connect` (src/App.jsx:32-35) is not modelled. Such an exception reaches the catch before any sampling loop starts. The model also omits a `recognition.start()` that throws after the flags are raised.
- The recogniser's configuration (`continuous`, `interimResults`, `lang = 'en-US'`) is not modelled. It does not affect component state.
- Recorders and audio contexts that are orphaned by a second press are not modelled. Only the latest one held in each ref is. Sampling loops are counted because they go on changing the level.
- Asynchrony is not modelled. Each handler runs to completion atomically. The interleaving of the `await`s with other events, and React's stale closures of `transcript` and `messages`, are concurrency effects outside the model.
- `fetch` and JSON parsing are not modelled. The exchange is a supplied outcome.
- A missing or non-string `response` field is not modelled. `ReplyData.response` is always a string.
- A fractional or NaN `message_id` is not modelled. Ids are integers or strings.
- JsText.IntToString: writes every integer as its exact decimal digits. JavaScript's `toString()` does that only for magnitudes up to 2^53. Above that it gives the shortest digits that round-trip, padded with zeros (`(2**60).toString()` is `"1152921504606847000"`). From 10^21 on it uses exponent form (`"1e+21"`). Clock-derived ids (about 1.7e12) are far below 2^53. Only a numeric backend `message_id` (src/App.jsx:122) beyond 2^53 would be rendered differently.
- JsText.NatToString: a non-empty run of digits with no leading zero only matches JavaScript below 10^21, and the digits are exact only up to 2^53, for the same reason.
- `Date.now()` and `new Date(...)` are clock inputs. Parsing `data.timestamp` is folded into `ReplyData.timestamp`, which is either a Date or an Invalid Date.
- `toISOString()` formatting is a library call. The history entry keeps the instant it would render.
- Floating point is not modelled. The audio level is a `real`, so the model captures the [0,1] bound and the exact ratio but not rounding.
- Speech synthesis, voice selection and retry on interrupt do not occur in the modelled source.
- `currentEnvironment` (src/api.js:26) is only a re-export of the selector. `Api.EnvironmentFlagsExclusive` states that it is a key of the table.
