# Turn gating and session state of a sales role-play front end

This project models the parts of the sales-practice web front end that hold logic. In a practice session the user speaks, the browser's speech recogniser transcribes the speech, and an AI character answers through a chat backend and speech synthesis. Three pieces are modelled:

- **The turn-gating controller** of the live session (`src/components/VideoSession.js`), module `VideoSession`, class `Controller`.
  - Two flags, `isAISpeaking` and `waitingForAI`, decide whether recognised speech is handed on.
  - A message shorter than ten characters is ignored.
  - An accepted message is logged and sent to the chat backend.
  - A reply is logged and spoken by a timer one second later. That timer then clears `waitingForAI`.
  - `cleanup` stops recognition and speech and clears both flags.
  - Each callback or timer is an event method.
  - The platform's speech APIs are fixed per browser and passed to the constructor. The voice list, the clock and the backend's answers are parameters of the events.
  - Fields `pendingRequests` and `pendingSpeech` record the requests in flight and the scheduled speak timers. With them, `Valid()` states the serialisation invariant: until `cleanup`, at most one turn is outstanding, and `waitingForAI` is set exactly while one is.
- **The earlier session component** (`video_session_component.js`), module `EarlyVideoSession`. It only grows a transcript from final recognition results and computes the session duration when the session ends.
- **The dashboard's session history** (`src/components/Dashboard.js`), module `Dashboard`:
  - the paging filters and "load more", which appends pages;
  - the filter change that restarts paging;
  - the CSS slug of a scenario's skill badge.

Shared pieces:

- `Recognition` holds the final-transcript loop of both `onresult` handlers (`AssembleFinal`), proved against the function `FinalText`.
- `JsText` models the JavaScript string primitives the code relies on: `trim`, `toLowerCase`, `includes` and the regular-expression class `\s`.

Several behaviours one might expect of a turn-taking controller are absent from the code, and the model follows the code:

- No debounce timer, post-playback cooldown, duplicate suppression, request timeout, recognition restart or fallback utterance exists, so none is modelled.
- `cleanup` cancels neither a chat request in flight nor a scheduled speak timer. `ReplyAfterCleanup` proves that, in the model, both handlers still run after teardown. In the program the component is unmounted by then, so React discards the log entry and the `isAISpeaking` update, and the utterance goes to a synthesiser that `cleanup` paused.
- `speakText` queues the new utterance; it does not cancel the one playing. `IntroductionOverlapsReply` proves one consequence. The user can speak before the two-second introduction timer fires. The reply is then queued behind the introduction, and the introduction's `onend` reopens the gate while the reply is still to be played.

## Model

| member | source | states |
|---|---|---|
| `JsText.Trim` | src/components/VideoSession.js:179-184 | `trim` drops exactly the leading and trailing whitespace. The result is the infix after the leading whitespace, followed only by whitespace, starts and ends with non-whitespace, and is empty iff the input is all whitespace |
| `JsText.Lower` | src/components/Dashboard.js:173 | `toLowerCase` keeps the length and lower-cases each character on its own |
| `JsText.Includes` | src/components/VideoSession.js:253-255 | `includes` holds iff the part occurs at some position of the string |
| `Recognition.AssembleFinal` | src/components/VideoSession.js:172-177 | the `for` loop from `resultIndex` yields `FinalText`: each final result's transcript followed by one space, in order, non-final results skipped |
| `Recognition.FinalTextEmptyIff` | video_session_component.js:97-103 | the final text is empty iff no result from `resultIndex` on is final (a final empty transcript still adds a space) |
| `Recognition.FinalTextBlankIff` | src/components/VideoSession.js:179 | the final text trims to nothing iff every final result from `resultIndex` on has an all-whitespace transcript |
| `Recognition.FinalTextEndsWithSpace` | src/components/VideoSession.js:175-184 | a non-empty final text ends with the space added after its last final result, so its `trim()` is strictly shorter |
| `Recognition.FinalTextSplit` | src/components/VideoSession.js:173-177 | results are taken in list order: the final text splits at any position into the part before and the part after |
| `VideoSession.PickVoice` | src/components/VideoSession.js:251-256 | `voices.find`: the first voice whose lower-cased name contains "female", "samantha" or "karen"; none iff no voice qualifies |
| `VideoSession.VoiceIsFirstPreferred` | src/components/VideoSession.js:245-259 | the utterance carries the text, the first preferred voice, and rate 0.9, pitch 1.1 and volume 0.8 |
| `VideoSession.DefaultVoiceWhenNonePreferred` | src/components/VideoSession.js:245-259 | with no preferred voice the utterance keeps the default voice, with the same text and prosody |
| `VideoSession.Controller.constructor` | src/components/VideoSession.js:14-29 | initial state: both flags and recording off, empty transcript and log, no recogniser, no utterance, nothing outstanding |
| `VideoSession.Controller.StartRecognition` | src/components/VideoSession.js:164-197 | a recogniser is started and `isRecording` set iff the platform has recognition |
| `VideoSession.Controller.AddToConversation` | src/components/VideoSession.js:233-239 | the log gains exactly one entry (speaker, message, timestamp) at its end, and earlier entries are unchanged |
| `VideoSession.Controller.OnResult` | src/components/VideoSession.js:171-187 | blank trimmed final text changes nothing. Otherwise the untrimmed final text is appended to the transcript. The trimmed text starts a turn iff both flags were clear and it has at least ten characters; that turn logs one `user` entry, sets `waitingForAI` and sends a request with the previous log (the program's mount-time handler sends an empty history; see "## Left out"). Otherwise the log and `waitingForAI` are unchanged |
| `VideoSession.Controller.BeginUserTurn` | src/components/VideoSession.js:199-216 | a message under ten characters changes nothing; a longer one sets `waitingForAI`, appends one `user` entry and yields the request. Serialisation is kept |
| `VideoSession.Controller.ReplyOk` | src/components/VideoSession.js:218-225 | a reply appends one `ai` entry with no emptiness check and schedules its speak timer; `waitingForAI` is not touched |
| `VideoSession.Controller.ReplyErr` | src/components/VideoSession.js:227-230 | a failed request clears `waitingForAI` and logs nothing |
| `VideoSession.Controller.SpeakText` | src/components/VideoSession.js:241-268 | with synthesis, sets `isAISpeaking` and queues the utterance with the picked voice; without it, nothing changes |
| `VideoSession.Controller.DelayedSpeak` | src/components/VideoSession.js:222-225 | the timer speaks the oldest scheduled reply and then clears `waitingForAI`. With synthesis the utterance reference and queue take the reply's utterance, and the gate stays closed because `isAISpeaking` was set first. Without synthesis only `waitingForAI` changes |
| `VideoSession.Controller.SpeechEnd` | src/components/VideoSession.js:261-263 | `onend` removes the finished utterance and clears `isAISpeaking`, even if more are queued |
| `VideoSession.Controller.Introduce` | src/components/VideoSession.js:157-162 | the fixed introduction is logged as the AI's. With synthesis it becomes the utterance reference and is queued; without it, speech state is unchanged |
| `VideoSession.Controller.Cleanup` | src/components/VideoSession.js:48-83 | afterwards both flags are clear, no recogniser is active, recording is off, the speech queue is empty and the utterance reference is dropped |
| `VideoSession.CleanupIsIdempotent` | src/components/VideoSession.js:48-83 | `cleanup` on the state a `cleanup` leaves changes no field |
| `VideoSession.IntroductionOverlapsReply` | src/components/VideoSession.js:135-137 | speech before the introduction timer leads to a state where the gate is open while the reply is still queued for playback |
| `VideoSession.ReplyAfterCleanup` | src/components/VideoSession.js:218-225 | `cleanup` cancels neither the request nor the speak timer: in the model a later reply is still logged and its timer sets `isAISpeaking` again (state updates that the unmounted program discards) |
| `EarlyVideoSession.Duration` | video_session_component.js:136 | with a (truthy) start time, start + duration = now; otherwise the duration is 0 |
| `EarlyVideoSession.Controller.constructor` | video_session_component.js:10-19 | initial state: not recording, empty transcript, no start time, no recogniser |
| `EarlyVideoSession.Controller.JoinedMeeting` | video_session_component.js:67-117 | records the start time. With recognition, a recogniser is listening and `isRecording` is set; without it, neither happens |
| `EarlyVideoSession.Controller.OnResult` | video_session_component.js:96-106 | the transcript becomes old + final text, so the old transcript is a prefix. It is unchanged iff no result from `resultIndex` on is final |
| `EarlyVideoSession.Controller.EndSession` | video_session_component.js:120-136 | stops an existing recogniser and clears `isRecording`, and returns `Duration` |
| `EarlyVideoSession.Controller.Unmount` | video_session_component.js:25-32 | the recogniser, if any, stops listening |
| `Dashboard.AfterLoadsOffset` | src/components/Dashboard.js:56-59 | after n page loads, scenario and limit are unchanged and the offset grew by exactly n × limit |
| `Dashboard.InitialPaging` | src/components/Dashboard.js:16-20 | from `{scenario: 'all', limit: 6, offset: 0}` the n-th load asks for offset 6n |
| `Dashboard.WithFilter` | src/components/Dashboard.js:77-82 | the named key takes the value, the other keys keep theirs, and the offset is 0 |
| `Dashboard.WithFilterForgetsPaging` | src/components/Dashboard.js:77-82 | a filter change gives the same filters however far paging had gone, and applying it twice equals applying it once |
| `Dashboard.MergePage` | src/components/Dashboard.js:66-69 | the merged list is the previous sessions followed by the fetched ones; `hasMore` comes from the response |
| `Dashboard.MergeAllIsConcatenation` | src/components/Dashboard.js:66-69 | after any number of loads the list is the first page followed by all fetched pages in order |
| `Dashboard.DashRunsChars` | src/components/Dashboard.js:173 | the slug has no whitespace, and each character is `-` or a character of the input |
| `Dashboard.DashRunsKeepsWords` | src/components/Dashboard.js:173 | text without whitespace is kept unchanged |
| `Dashboard.DashRunsOfRun` | src/components/Dashboard.js:173 | a non-empty whitespace run becomes exactly one `-`, or nothing when it continues a run already replaced |
| `Dashboard.DashRunsSplit` | src/components/Dashboard.js:173 | a non-whitespace character is kept, and the text on either side of it is rewritten independently |
| `Dashboard.SlugIdempotent` | src/components/Dashboard.js:173 | slugging a slug changes nothing |
| `Dashboard.SkillBadgeClass` | src/components/Dashboard.js:173 | the class attribute is `skill-badge ` followed by a single class token: no whitespace, and each character is `-` or a character of the lower-cased skill area |
| `Dashboard.DashboardState.constructor` | src/components/Dashboard.js:9-20 | initial state: no scenarios or sessions, loading, filters `{'all', 6, 0}` |
| `Dashboard.DashboardState.LoadData` | src/components/Dashboard.js:33-50 | requests with the current filters. On success scenarios, data and sessions are replaced; on failure nothing changes. `loading` ends false either way |
| `Dashboard.DashboardState.LoadMoreSessions` | src/components/Dashboard.js:51-75 | requests the next page. On success the pages are merged and the filters advance; on failure neither changes |
| `Dashboard.DashboardState.HandleFilterChange` | src/components/Dashboard.js:77-88 | the filters become `WithFilter` of the old filters |

## Left out

- Network and external services: the axios calls to the backend, Firebase authentication and sign-out, and the Daily.co call object (created, joined, left and destroyed). The backend's answers are event parameters.
- Session start and end bookkeeping of `VideoSession.js`: `initializeSession`, the scenario lookup, the loading and error states, `endSession`'s navigation, and the feedback rendering.
- The chat request's `sessionId` and `scenarioId`: only the message and the history are modelled.
- The browser speech APIs: recognition and synthesis availability are booleans, and voices are their names. The recogniser's `lang`, `continuous` and `interimResults` settings are not modelled, nor its `onerror` logging.
- A result's alternatives: only the top one (`results[i][0]`) is modelled.
- Timers: the 2000 ms and 1000 ms delays are event methods. Only their ordering is kept, and speak timers fire in the order they were set. The dashboard's 100 ms reload is not modelled (see the dashboard stale-closure line below).
- `speechSynthesis.pause()` in `cleanup` is not modelled. An utterance queued after teardown is treated like any other.
- Stale closures: the gate is modelled as written. React handlers created at mount in fact see the mount-time flag values. The same capture fixes the chat request's history: the recogniser's handler is created by the mount render, so it reads the initial empty log, and every request the program sends has an empty `conversationHistory`. `OnResult` and `BeginUserTurn` send the log as it stood before the user's entry.
- Stale closures, dashboard: the reload that `handleFilterChange` schedules after 100 ms calls the `loadData` of the render before the change. It therefore requests the old filters. That reload is not modelled; `LoadData` queries the filters it is given at the time.
- State updates after unmount: `cleanup` is followed by unmounting, via navigation or the effect's clean-up. React discards state updates that a late reply or a late speak timer makes after that. The model keeps applying them, so the model alone has the late log entry and the renewed `isAISpeaking` that `ReplyAfterCleanup` shows.
- React's asynchronous batching of state updates is not modelled.
- The dashboard's `LoadData` and `LoadMoreSessions` each take their response as a parameter: request and response are one atomic event. Two "load more" clicks before the first answer would both compute `offset + limit` from the same filters, and both pages would be appended, listing that page twice. The model cannot express this. The chat request of the session controller is not atomic: it is sent by `OnResult` and answered by `ReplyOk` or `ReplyErr`, with other events possible in between.
- A reply without a `response` field is not modelled: the JavaScript would log `undefined`, and the model takes a string.
- Text: `toLowerCase` is modelled for ASCII letters only. Lengths count Unicode scalar values, whereas JavaScript counts UTF-16 code units; the two differ only outside the Basic Multilingual Plane.
- Display arithmetic on durations and scores (floating point) is not modelled.
- Dashboard parts not modelled:
  - the summary figures, `viewSessionDetails`, logout, navigation and the skill-area and vertical selects;
  - filter keys other than the three, and values of another JavaScript type;
  - the `|| []` fallback for a response without sessions.
- dashboard_component.js (fetch and render only) and login_component.js (a sign-in form) are not part of this model.
