# Tutoring app core, modelled in Dafny

This project models the logic core of a Python tutoring app. The app has a React front end and a small Python back end. The model covers:

- **Problem progression.** Week content is looked up by (problem, subproblem). Progress rows are resumed or created. Each answer goes to the AI tutor for validation, and a correct verdict advances the position or completes the run. Chat history is append-only, and the AI placeholder entry is rewritten only by its id.
- **Streaming protocol, both ends.** The two Python generators emit `data: <json>\n\n` frames: a verdict frame first for `validate`, then one `chunk` frame per word. The browser's `APIService.sendToAI` parses them back. The test stream of `app.py` slices its text into 10-character chunks.
- **Hint ladders.** There are three: the numeric `useHintLogic` hook with its read-session timers, the string-levelled `hintLogic.ts` with per-level visible time, and the unlock gating of the exercise panel. The back end maps levels to hint texts.
- **Timers.** `useSubproblemTimer` ends the previous session before starting the next. The back end's end-timer handler pads fractional seconds and rounds the duration.
- **Analytics.** The `useAnalytics` reducers and the display arithmetic of the analytics panel.
- **Week content cache.** A TTL cache and the group-by of content rows.
- **Sign-up and sign-in pages.** Ordered first-failure validation, password strength, and error classification.

## How the model is built

- Code made of expressions becomes datatypes and functions with lemmas.
- Code that updates state step by step becomes a class whose methods say, with `modifies`, exactly what they change. Examples: the hooks, the database store, the cache and the page handlers.
- Loops become methods with loop invariants, each proved equal to a specification function: the resume query, the frame-parsing loop of `sendToAI`, the grouping `reduce` and the password-strength counter.
- External services (Supabase, the auth client, the timing service, `fetch`) become parameters that carry their outcome. Where the code makes calls, the model records them in a sequence.
- Clocks and `crypto.randomUUID` are parameters. Inside the problem-flow hook, identifiers come from a counter, so they are provably fresh.
- JSON frames are a datatype, `StreamFrames.Frame`. The wire encoding is an abstract `encode` function, and the client's `JSON.parse` is an abstract `parse` function. The round-trip lemmas assume only that `parse(encode(f)) == Some(f)` and that an encoded frame has no line feed.

## What the code does, where it differs from its evident intent

The model follows the code as written. Where the code does something its surroundings do not expect, a lemma exhibits it:

- **The streaming server rejects the browser's history.** `streaming.py` reads `chat_history[-1]['content']`. The browser sends chat-log rows, whose text is under `message`. So any request with a non-empty history makes the generator raise before its first frame, and the browser's reply is never correct (`ProblemFlow.StreamingServerNeedsEmptyHistory`, `StreamServer.StreamingRejectsClientHistory`, `StreamRoundTrip.BrokenStreamIsNeverCorrect`).
- **The testing server judges every answer incorrect.** The browser never sends `userResponse`, so `testingStream.py` judges every answer incorrect (`ProblemFlow.TestingServerRejectsEveryAnswer`).
- **The placeholder never receives text.** The hook passes a chunk callback that `APIService.sendToAI` does not take, so the AI placeholder in the local history keeps the empty message. Only the stored entry receives the full reply (`ProblemFlow.ProblemFlowState.SendToAI`).
- **The `next` request carries a stale history.** It is sent with the history the closure saw before the answer was added (`ProblemFlow.ProblemFlowState.HandleUserResponse`).
- **Restart always fails in shipped code.** `SessionService.restartModule` is called by the restart handler but not defined, so in the shipped code the call throws. The model takes its result as an `Option` (`None`: it threw). It also states what happens if it returned a session. The existing `resetModuleProgress` resumes an incomplete run rather than starting a new one (`ProgressStore.ResetResumesExistingRun`).
- **A stored hint level turns the ladder off.** `useHintLogic` stores the level NAME from `determineCurrentHintLevel` into numeric state. After a load, the button reads "Solution Provided" whatever was stored (`HintLadder.LoadedLevelOffersNoNextHint`).
- **The reloaded hint text is the latest, not the highest.** `getLastHintContent` returns the text of the last entry by open time, not of the highest level (`HintService.LastContentNeedNotBeHighestLevel`).
- **A failed resume query opens a second run.** `initializeOrResumeProgress` inserts a new run whenever the resume query reports an error, even when an incomplete run exists. The table then holds two incomplete runs of the same user and module (`ProgressStore.FailedQueryDuplicatesRun`).
- **Problem order comes from `Object.values`.** Grouped problems are listed in `Object.values` order: integer keys ascending, not first-seen order (`WeekContentCache.ObjectValuesOrderSpec`).
- **A sign-up validation failure leaves the page loading.** It returns with `isLoading` still true (`SignUpPage.SignUpPageState.HandleSubmit`).

## Model

| member | source | states |
|---|---|---|
| WeekContentService.GetCurrentContent | src/lib/databaseService.ts:88-98 | the result is a unit of the list at exactly (p, s), the first such; None iff no unit is at (p, s) |
| WeekContentService.MaxOf | src/lib/databaseService.ts:100-107 | `Math.max(...xs)`: None (−Infinity) iff the list is empty, else a member that bounds every element |
| WeekContentService.MaxProblemIndex | src/lib/databaseService.ts:100-103 | there is a largest problem index iff there are units |
| WeekContentService.MaxSubproblemIndex | src/lib/databaseService.ts:104-107 | there is a largest subproblem index of p iff some unit belongs to p |
| WeekContentService.MaxProblemIndexSpec | src/lib/databaseService.ts:100-103 | the max problem index exists iff there are units; it is some unit's problem index and no unit's is larger |
| WeekContentService.MaxSubproblemIndexSpec | src/lib/databaseService.ts:104-107 | the max subproblem index of p exists iff some unit belongs to p; it is the subproblem index of a unit of p and bounds all of them |
| ProgressStore.LatestIncomplete | src/lib/databaseService.ts:118-131 | the resume query: None iff no incomplete row of the user at the module; otherwise such a row with the greatest updated_at |
| ProgressStore.UpdateRows | src/lib/databaseService.ts:165-185 | the update keeps the table's length; rows with the id take the new position, completion and time |
| ProgressStore.TouchResumable | src/lib/databaseService.ts:189-200 | only updated_at changes, and only on the resumable rows, which stay resumable |
| ProgressStore.RunLogs | src/lib/databaseService.ts:213-218 | the filter keeps exactly the logs of that user, module and run |
| ProgressStore.InsertByTime | src/lib/databaseService.ts:219 | inserting into a history ordered by time keeps it ordered and adds exactly that entry |
| ProgressStore.SortByTime | src/lib/databaseService.ts:219 | the result is ordered by time_sent and is a permutation of the input |
| ProgressStore.ChatHistoryOf | src/lib/databaseService.ts:208-226 | the loaded history is ordered by time_sent, earliest first, and is a permutation of exactly the logs of that user, module and run |
| ProgressStore.LoadedInTimeOrder | src/lib/databaseService.ts:219 | a later entry stored first is loaded second |
| ProgressStore.SessionOutcome | src/lib/databaseService.ts:431-453 | a session exists only with a signed-in user and a successful load; it names a row of the new table, that row is the user's run at the module, and the history holds exactly that run's logs in time order |
| ProgressStore.Database.constructor | src/lib/databaseService.ts:13-35 | an empty progress table and an empty chat log |
| ProgressStore.Database.FindResumable | src/lib/databaseService.ts:118-131 | the scanning loop returns exactly `LatestIncomplete` of the table |
| ProgressStore.Database.InitializeOrResumeProgress | src/lib/databaseService.ts:112-162 | the new table and the returned row are those of `InitOutcome`: resume the latest incomplete run when the query succeeds with one; else insert a run at (1, 1); a failed insert throws and changes nothing |
| ProgressStore.Database.UpdateProgress | src/lib/databaseService.ts:165-185 | the table becomes `UpdateRows` of the old table; the chat log is unchanged |
| ProgressStore.Database.ResetModuleProgress | src/lib/databaseService.ts:189-203 | the resumable rows are refreshed, then initialize-or-resume runs on the refreshed table, with the same error paths |
| ProgressStore.Database.LoadChatHistory | src/lib/databaseService.ts:208-226 | a failed query throws; otherwise the run's logs ordered by time_sent, a permutation of the matching logs |
| ProgressStore.Database.SaveChatMessage | src/lib/databaseService.ts:229-258 | appends exactly one entry; a missing or zero timestamp is replaced by now; progress is unchanged |
| ProgressStore.Database.InitializeSession | src/lib/databaseService.ts:431-453 | the new table and the result are those of `SessionOutcome`: None when there is no user or a store call fails; otherwise the resumed or new run and its history |
| ProgressStore.ResumeIsIdempotent | src/lib/databaseService.ts:112-162 | when both resume queries succeed, initializing twice returns the same run and the second call leaves the table as the first left it |
| ProgressStore.InitOutcomeSpec | src/lib/databaseService.ts:118-162 | a successful query with an incomplete run resumes the latest one and keeps the table; otherwise a successful insert appends exactly the given run at (1, 1), incomplete, and returns it; a failed insert gives None |
| ProgressStore.InitKeepsAtMostOneIncomplete | src/lib/databaseService.ts:112-162 | after a successful resume query, initializing keeps "at most one incomplete run per user and module" |
| ProgressStore.FailedQueryDuplicatesRun | src/lib/databaseService.ts:118-154 | a failed resume query while an incomplete run exists inserts a second incomplete run of that user and module |
| ProgressStore.ResetResumesExistingRun | src/lib/databaseService.ts:189-203 | when an incomplete run exists and the query succeeds, reset adds no row and returns that same run, stamped with the reset time |
| ProgressStore.CompletedRunIsNotResumed | src/lib/databaseService.ts:165-185 | after a run is marked complete, resume never picks a row with that id |
| ProgressStore.UpdateRowsFrame | src/lib/databaseService.ts:165-179 | rows with another id are unchanged; on matching rows only position, completion and updated_at change |
| HintService.DetermineCurrentHintLevel | src/lib/databaseService.ts:365-377 | 'more_help' iff the highest stored level is 2, 'solution' iff it is 3, 'initial' otherwise (including no entries) |
| HintService.GetLastHintContent | src/lib/databaseService.ts:378-381 | '' for no entries, else the text of the last entry |
| HintService.LastContentNeedNotBeHighestLevel | src/lib/databaseService.ts:378-381 | a history where the reloaded text is not the text of the highest level |
| HintService.DurationSeconds | src/lib/databaseService.ts:309-311 | the nearest whole number of seconds between open and close, halves up |
| ChatService.TransformChatLogsToMessages | src/lib/databaseService.ts:261-268 | one message per log, same order, carrying its id, role, text and time |
| ChatService.TransformAppend | src/lib/databaseService.ts:261-268 | transforming a history extended by one log extends the messages by that log's message |
| StreamClient.FindSeparator | src/lib/databaseService.ts:560 | the first "\n\n" of the buffer, None iff there is none |
| StreamClient.SplitAtBlankLines | src/lib/databaseService.ts:560 | `split('\n\n')` never yields an empty list |
| StreamClient.DropBlank | src/lib/databaseService.ts:560 | the filter keeps exactly the pieces that are not blank after trimming |
| StreamClient.Step | src/lib/databaseService.ts:562-577 | one frame only extends the message, and once the first frame of a 'validate' stream is seen the verdict no longer changes |
| StreamClient.FoldLines | src/lib/databaseService.ts:551-586 | only a 'validate' stream takes a verdict, and none is true before its first frame |
| StreamClient.ClientReply | src/lib/databaseService.ts:537-587 | a failed request gives (false, the error text); a request other than 'validate' is never correct |
| StreamClient.SendToAI | src/lib/databaseService.ts:537-587 | the loop's verdict and message are `ClientReply` of the response body |
| StreamClient.FoldIsFirstVerdictAndChunks | src/lib/databaseService.ts:551-586 | the loop yields the verdict of the first parsed frame (for 'validate' only) and the in-order concatenation of all parsed chunks |
| StreamClient.ClientReplySpec | src/lib/databaseService.ts:537-587 | a failed request gives (false, the error text); otherwise isCorrect is the first parsed frame's verdict for 'validate' and false for any other action, and the message is the concatenated chunks |
| StreamServer.ChunkFrames | BACKEND/streaming.py:52-53 | one chunk frame per word, in order, each word followed by ' ' |
| StreamServer.Emit | BACKEND/streaming.py:42-53 | with a verdict, it is the first frame and the word frames follow; without one, only the word frames |
| StreamServer.LatestResponse | BACKEND/streaming.py:18-21 | 'default' for an empty history, the last entry's 'content' otherwise, None when that member is missing |
| StreamServer.GenerateResponse | BACKEND/streaming.py:9-54 | the generator raises before any frame iff the latest response cannot be read |
| StreamServer.EmitShape | BACKEND/streaming.py:42-53 | a verdict frame exactly when one is given, always first, followed only by chunk frames |
| StreamServer.StreamingVerdict | BACKEND/streaming.py:29-44 | only 'validate' streams a verdict frame, and it is `len(latest) > 10` |
| StreamServer.StreamingTexts | BACKEND/streaming.py:29-49 | the text streamed for 'validate' (chosen by the verdict), 'initialize', 'next' and any other action |
| StreamServer.StreamingRejectsClientHistory | BACKEND/streaming.py:21 | a non-empty history whose entries lack 'content' makes the generator raise |
| StreamServer.TestingVerdictFirst | BACKEND/testingStream.py:12-39 | only 'validate' streams a verdict, `len(userResponse) > 10`, first, then the text for the action word by word |
| StreamServer.TestingWithoutUserResponseIsIncorrect | BACKEND/testingStream.py:18-30 | without 'userResponse', 'validate' streams the verdict false and the incorrect text |
| StreamRoundTrip.LinesOfWire | src/lib/databaseService.ts:560 | splitting a body of events at blank lines and dropping blank pieces gives exactly one line per event |
| StreamRoundTrip.ParsedEventLines | src/lib/databaseService.ts:563-565 | every event line parses back to its frame |
| StreamRoundTrip.ChunksOfWordFrames | BACKEND/streaming.py:52-53 | the chunks of a word stream concatenate to the words each followed by a space |
| StreamRoundTrip.WordsOfSpacedWords | BACKEND/streaming.py:52 | splitting what the client accumulated gives back exactly the server's words |
| StreamRoundTrip.ClientReadsEmittedFrames | src/lib/databaseService.ts:537-587 | the client reading an emitted stream reports the emitted verdict (for 'validate') and the spaced words of the text |
| StreamRoundTrip.ClientReadsStreamingServer | BACKEND/streaming.py:9-54 | streaming.py to the browser: the verdict is `len(latest) > 10` for 'validate' and the message is the response text re-spaced |
| StreamRoundTrip.ClientReadsTestingServer | BACKEND/testingStream.py:9-40 | testingStream.py to the browser: the verdict is `len(userResponse) > 10` for 'validate' and the message is the text re-spaced |
| StreamRoundTrip.BrokenStreamIsNeverCorrect | src/lib/databaseService.ts:537-587 | an empty body is never read as correct, and a failed request gives the error reply |
| TestStream.Slices | BACKEND/app.py:217 | the number of slices is ceil(len / 10) |
| TestStream.SlicesConcat | BACKEND/app.py:217 | the slices concatenate to the text |
| TestStream.SliceLengths | BACKEND/app.py:217 | every slice but the last is 10 long, and the last is 1 to 10 long |
| TestStream.TestStreamSpec | BACKEND/app.py:214-217 | the chunks rebuild "Received input: " followed by the rendered input, in ceil(len / 10) slices |
| TestStream.StrategyFor | BACKEND/app.py:108-115 | the strategy is 'START' whenever the mistake is 'CORRECT' |
| TestStream.CheckResponse | BACKEND/app.py:92-115 | as written, always ['CORRECT', 'START'] |
| HintBackend.RetrieveHint | BACKEND/hintBackend.py:1-37 | a dict iff the level is 'initial', 'more_help' or 'solution', with each level's text; otherwise the bare string "No hint available." |
| HintBackend.DistinctLevelsDistinctHints | BACKEND/hintBackend.py:30-35 | distinct known levels give distinct replies |
| HintLadder.MapLevelToString | src/hooks/useHintLogic.tsx:25-29 | 1 maps to 'initial', 2 to 'more_help', every other number to 'solution' |
| HintLadder.GetButtonConfig | src/hooks/useHintLogic.tsx:84-88 | a next level exists exactly at levels 1 and 2, and it is the level above |
| HintLadder.ButtonLabels | src/hooks/useHintLogic.tsx:84-88 | the label is 'Need More Help?' iff level 1, 'Need The Solution?' iff level 2, and 'Solution Provided' iff there is no next level |
| HintLadder.LoadedLevelOffersNoNextHint | src/hooks/useHintLogic.tsx:67-68 | after a load the level holds a name, so the button offers no next level whatever was stored |
| HintLadder.HintLadderState.constructor | src/hooks/useHintLogic.tsx:43-48 | closed, level 1, no content, no read session, no calls |
| HintLadder.HintLadderState.LoadExistingHints | src/hooks/useHintLogic.tsx:51-82 | without a user or run, or when loading throws, nothing changes; otherwise the level name and the last content are taken from the stored usage |
| HintLadder.HintLadderState.RequestHint | src/hooks/useHintLogic.tsx:90-128 | exactly one fetch of the level's name; on success the hint is shown and one usage entry recorded; on failure the apology is shown and nothing recorded |
| HintLadder.HintLadderState.OpenPopup | src/hooks/useHintLogic.tsx:130-152 | opens; only on a first open at level 1 with nothing shown it requests level 1, shows the hint and records one usage entry on success, or the apology with nothing recorded, and ends not loading; otherwise content, usage and loading are kept; a read session starts on every open |
| HintLadder.HintLadderState.ClosePopup | src/hooks/useHintLogic.tsx:154-165 | closes; ends the read session only when one is held, and holds none afterwards |
| HintLadder.HintLadderState.HandleNextHint | src/hooks/useHintLogic.tsx:167-196 | without a next level nothing changes; otherwise the held session is ended, the level becomes exactly the next one, it is requested and a session is started for it |
| HintVisibility.FetchHint | src/lib/hintLogic.ts:14-41 | every level has a non-empty hint |
| HintVisibility.FetchHintIsInjective | src/lib/hintLogic.ts:14-41 | two levels have the same hint iff they are the same level |
| HintVisibility.LevelNumber | src/lib/hintLogic.ts:126-139 | the level number is 1..3 and names the level back |
| HintVisibility.GetButtonConfig | src/lib/hintLogic.ts:106-117 | the next level is one number up, and 'solution' has none |
| HintVisibility.ButtonLabels | src/lib/hintLogic.ts:106-117 | the label is 'Need More Help?' iff 'initial', 'Need The Solution?' iff 'more_help', and 'Solution Provided' iff there is no next level |
| HintVisibility.RecordFirstUse | src/lib/hintLogic.ts:126-139 | an entry is added only on a level's first request: its level number, first used now, visible 0 ms; other entries are unchanged |
| HintVisibility.AddVisibleTime | src/lib/hintLogic.ts:79-90 | adds the duration to that level's entry if it has one; no other entry changes and no entry is created |
| HintVisibility.RecordFirstUseKeepsNumbering | src/lib/hintLogic.ts:126-139 | recording a first use keeps every entry numbered by its own level |
| HintVisibility.AddVisibleTimeKeepsNumbering | src/lib/hintLogic.ts:79-90 | adding visible time keeps every entry numbered by its own level |
| HintVisibility.HintVisibilityState.constructor | src/lib/hintLogic.ts:61-70 | closed, level 'initial', no content, no analytics, no timer |
| HintVisibility.HintVisibilityState.VisibilityEffect | src/lib/hintLogic.ts:73-103 | open: the timer starts now for the shown level; closed with a timer: the elapsed time is added to the active level, the timer cleared, the analytics sent only when some level has an entry |
| HintVisibility.HintVisibilityState.RequestHint | src/lib/hintLogic.ts:119-147 | shows the level's hint and records its first use |
| HintVisibility.HintVisibilityState.OpenPopup | src/lib/hintLogic.ts:149-154 | opens; requests 'initial' only at level 'initial' with nothing shown; the timer runs for the shown level |
| HintVisibility.HintVisibilityState.ClosePopup | src/lib/hintLogic.ts:156 | closes; the elapsed time goes to the active level's entry if it exists; the timer is cleared |
| HintVisibility.HintVisibilityState.AddElapsedToCurrent | src/lib/hintLogic.ts:160-169 | while the timer runs, the time since it started is added to the current level before any switch |
| HintVisibility.HintVisibilityState.HandleNextHint | src/lib/hintLogic.ts:158-176 | adds the elapsed time to the current level, then moves exactly one level up (never past 'solution') and requests it; while the popup is open the timer restarts at now for the shown level |
| ExercisePanel.IsHintAvailable | src/components/ExercisePanel.tsx:32-37 | level 1 always; level 2 iff 1 was used; level 3 iff 2 was used; nothing else |
| ExercisePanel.HintButtonText | src/components/ExercisePanel.tsx:39-43 | 'Hint n (Used)' when used, over 'Hint n (Locked)' when unavailable; 'Get Hint n' otherwise |
| ExercisePanel.IsDisabled | src/components/ExercisePanel.tsx:107 | disabled iff unavailable |
| ExercisePanel.AvailabilityIsMonotone | src/components/ExercisePanel.tsx:32-37 | using more hints never makes an available level unavailable |
| ExercisePanel.UsedOutranksLocked | src/components/ExercisePanel.tsx:39-43 | a used level reads 'Used' even while locked |
| ExercisePanel.LabelMatchesDisabled | src/components/ExercisePanel.tsx:39-43 | 'Get Hint n' iff enabled and unused, 'Locked' iff disabled and unused, 'Used' iff used |
| SubproblemTimer.UnloadBeacon | src/hooks/useSubproblemTimer.tsx:81-98 | a beacon iff a session is held and the backend URL is set, carrying the held id |
| SubproblemTimer.SubproblemTimerState.constructor | src/hooks/useSubproblemTimer.tsx:21-22 | no session held, not tracking, no calls |
| SubproblemTimer.SubproblemTimerState.RunEffect | src/hooks/useSubproblemTimer.tsx:25-61 | disabled or missing user/run: any held session is ended and cleared, none started; otherwise the held session is ended first, then one start, whose id is held with tracking on |
| SubproblemTimer.SubproblemTimerState.Cleanup | src/hooks/useSubproblemTimer.tsx:64-76 | ends the held session and clears the id and the tracking flag |
| SubproblemTimer.SubproblemTimerState.ChangeProps | src/hooks/useSubproblemTimer.tsx:25-77 | the previous position's session is ended before the new one starts, and only the new one is held |
| SubproblemTimer.SubproblemTimerState.BeforeUnload | src/hooks/useSubproblemTimer.tsx:80-104 | sends exactly the beacon `UnloadBeacon` decides |
| EndTimer.IndexOf | BACKEND/handleExit.py:33 | the first position of the character, None iff it does not occur |
| EndTimer.RemoveChar | BACKEND/handleExit.py:36 | the result has no such character and is the input when there was none |
| EndTimer.PadFraction | BACKEND/handleExit.py:35-41 | with a 'Z', the fraction without it, padded to six, then 'Z' |
| EndTimer.PadFractionalSeconds | BACKEND/handleExit.py:32-43 | without a '.' the string is unchanged; with one, everything up to the first '.' is kept and the fraction's digits are padded with '0' to at least six, followed by the 'Z' or '+offset' |
| EndTimer.PadFractionSpec | BACKEND/handleExit.py:33-43 | the fraction's digits are kept as a prefix, padded with '0' to at least six and never truncated; a 'Z' or '+offset' follows them |
| EndTimer.PadFractionIdempotent | BACKEND/handleExit.py:35-41 | padding a padded fraction changes nothing |
| EndTimer.PadFractionalSecondsIdempotent | BACKEND/handleExit.py:32-43 | padding a padded time string changes nothing |
| EndTimer.RoundHalfEven | BACKEND/handleExit.py:54 | the nearest whole second, halves to the even neighbour |
| EndTimer.DurationSeconds | BACKEND/handleExit.py:54 | the whole seconds nearest the span, halves to even; never negative for a non-negative span |
| EndTimer.ReplaceZ | BACKEND/handleExit.py:45 | no 'Z' is left, each 'Z' adds five characters, and a string without 'Z' is unchanged |
| EndTimer.ReplaceZAppend | BACKEND/handleExit.py:45 | replacing in a concatenation is replacing in each part |
| EndTimer.EndedLog | BACKEND/handleExit.py:57-60 | the end time and the rounded duration are written; the start is kept |
| EndTimer.EndingTwiceOverwrites | BACKEND/handleExit.py:57-60 | a second end overwrites the first, so ending twice at different times differs from ending once |
| EndTimer.TimeLogStore.constructor | BACKEND/handleExit.py:23 | the store holds the given rows |
| EndTimer.TimeLogStore.EndSubproblemTimer | BACKEND/handleExit.py:10-66 | 400 for a missing or empty id, before any access; 404 for an unknown row; 500 when parsing or the write fails; else 200 with the row ended now |
| Analytics.DedupSpec | src/hooks/useAnalytics.ts:65 | `[...new Set(xs)]` has no duplicates and the same members as `xs` |
| Analytics.WithLevel | src/hooks/useAnalytics.ts:65 | the used levels after the spread: on a duplicate-free list the level is appended only when new |
| Analytics.DedupOfDistinct | src/hooks/useAnalytics.ts:65 | a duplicate-free list is its own deduplication |
| Analytics.AddUsedLevel | src/hooks/useAnalytics.ts:65 | adding a level to a duplicate-free list appends it only when new |
| Analytics.MaxLevel | src/hooks/useAnalytics.ts:64 | the highest interaction level, 0 for none: it bounds every level and is one of them |
| Analytics.SetViewingDuration | src/hooks/useAnalytics.ts:86-95 | same length; the duration is set exactly on interactions with a matching timestamp; the others are unchanged |
| Analytics.SetViewingDurationKeepsLevels | src/hooks/useAnalytics.ts:86-95 | setting durations changes no interaction's level |
| Analytics.MaxLevelOfSameLevels | src/hooks/useAnalytics.ts:64-65 | logs with the same levels have the same highest level and the same set of levels |
| Analytics.LevelsOfSpec | src/hooks/useAnalytics.ts:63-65 | a level is among the logged levels exactly when some interaction carries it |
| Analytics.LogKeepsSummary | src/hooks/useAnalytics.ts:61-66 | appending an interaction, raising the highest level to the max and adding the level once keeps the used list equal to the logged levels without duplicates, and the highest level equal to the log's maximum |
| Analytics.AnalyticsTracker.constructor | src/hooks/useAnalytics.ts:6-16 | empty logs, level 0, both clocks at now |
| Analytics.AnalyticsTracker.StartTracking | src/hooks/useAnalytics.ts:21-28 | both start times become now; nothing else changes |
| Analytics.AnalyticsTracker.Tick | src/hooks/useAnalytics.ts:29-35 | the totals become the time since each start |
| Analytics.AnalyticsTracker.LogCodeChange | src/hooks/useAnalytics.ts:38-49 | appends exactly one change; nothing else changes |
| Analytics.AnalyticsTracker.LogHintInteraction | src/hooks/useAnalytics.ts:51-69 | appends one interaction timed from the exercise start; the level becomes the max of old and new; the level joins the used list once |
| Analytics.AnalyticsTracker.LogCodeExecution | src/hooks/useAnalytics.ts:71-84 | appends exactly one execution; nothing else changes |
| Analytics.AnalyticsTracker.UpdateHintViewingDuration | src/hooks/useAnalytics.ts:86-95 | the interactions become `SetViewingDuration` of the old ones; the invariant linking the level summary to the log is kept |
| AnalyticsPanel.Decompose | src/components/AnalyticsPanel.tsx:9-21 | hours form iff at least an hour, minutes form iff a minute to an hour; the fields are in range and add back up to the whole seconds |
| AnalyticsPanel.FormatTime | src/components/AnalyticsPanel.tsx:9-21 | the text ends in 's', shows an hours part iff at least an hour has passed and a minutes part iff at least a minute |
| AnalyticsPanel.FormatTimeFields | src/components/AnalyticsPanel.tsx:9-21 | for a non-negative time the shown fields add back up to the whole seconds elapsed, each below the next unit |
| AnalyticsPanel.CountSuccesses | src/components/AnalyticsPanel.tsx:25 | successes never exceed the runs |
| AnalyticsPanel.RoundDiv | src/components/AnalyticsPanel.tsx:26 | `Math.round(n / d)`: the nearest integer, halves up |
| AnalyticsPanel.GetSuccessRate | src/components/AnalyticsPanel.tsx:23-27 | 0 with no runs, else the rounded percentage of successes |
| AnalyticsPanel.SuccessRateIsPercentage | src/components/AnalyticsPanel.tsx:23-27 | always within 0..100; 100 when all succeeded and 0 when none did |
| AnalyticsPanel.GetAverageExecutionTime | src/components/AnalyticsPanel.tsx:29-33 | 0 with no runs, else the mean execution time rounded |
| AnalyticsPanel.HighestLevelLabel | src/components/AnalyticsPanel.tsx:88 | 'None' iff the level is 0, else 'Level ' and the number |
| AnalyticsPanel.RecentFirst | src/components/AnalyticsPanel.tsx:132 | the last three entries (all when fewer), newest first |
| WeekContentCache.KeysSpec | src/lib/weekContent.ts:31-42 | the indices seen are distinct, are exactly the rows' indices, and are exactly the keys of the groups |
| WeekContentCache.GroupsSpec | src/lib/weekContent.ts:31-42 | each group's subquestions are its rows' subproblem texts in row order; its number and main question come from its first row |
| WeekContentCache.NoGroupNoTexts | src/lib/weekContent.ts:31-42 | an index with no group has no rows |
| WeekContentCache.GroupByProblem | src/lib/weekContent.ts:31-42 | the accumulation loop builds exactly `Groups`, with the keys in first-seen order |
| WeekContentCache.SortAscending | src/lib/weekContent.ts:44 | the sorted keys are ascending and a permutation of the input |
| WeekContentCache.ObjectValuesOrderSpec | src/lib/weekContent.ts:44 | `Object.values` lists every key once: array-index keys ascending, then the others in insertion order |
| WeekContentCache.TransformOrder | src/lib/weekContent.ts:44-47 | the content lists each index's group once, in that enumeration order |
| WeekContentCache.TransformKeepsEveryRow | src/lib/weekContent.ts:31-44 | the content holds exactly as many subquestions as there are rows |
| WeekContentCache.TransformGroupsByIndex | src/lib/weekContent.ts:31-44 | one problem per distinct index of the rows; each index's group is listed, and every listed problem is some index's group |
| WeekContentCache.CachedContent | src/lib/weekContent.ts:8-15 | served iff an entry exists and is younger than the one-hour TTL |
| WeekContentCache.FreshEntryIsServed | src/lib/weekContent.ts:4-15 | an entry stored at t is served until, and not at, t + TTL |
| WeekContentCache.WeekContentCacheState.constructor | src/lib/weekContent.ts:3 | an empty cache and no fetches |
| WeekContentCache.WeekContentCacheState.GetWeekContent | src/lib/weekContent.ts:7-57 | a hit returns the cached content without fetching; otherwise one fetch; non-empty rows are transformed, stored at the fetch time and returned; empty rows and a fetch error give null with the cache unchanged |
| SignUpPage.FirstFailure | src/pages/SignUp.tsx:35-45 | None iff every check passes; otherwise the text of the first failing check |
| SignUpPage.ValidateFormSpec | src/pages/SignUp.tsx:35-45 | null iff all eight checks pass; otherwise the first failing one in source order |
| SignUpPage.BlankFirstNameReportedFirst | src/pages/SignUp.tsx:37 | a blank first name is reported whatever else is wrong |
| SignUpPage.PasswordStrength | src/pages/SignUp.tsx:94-103 | the counting loop gives the number of criteria met: length at least 8, upper, lower, digit, other; within 0..5 |
| SignUpPage.StrengthMonotone | src/pages/SignUp.tsx:94-103 | appending characters never lowers the strength |
| SignUpPage.Band | src/pages/SignUp.tsx:105-117 | the shared thresholds: weak iff at most 2, medium iff 3, strong iff at least 4 |
| SignUpPage.StrengthText | src/pages/SignUp.tsx:112-117 | 'Weak' iff at most 2, 'Medium' iff 3, 'Strong' iff at least 4 |
| SignUpPage.StrengthColor | src/pages/SignUp.tsx:105-110 | red iff at most 2, yellow iff 3, green iff at least 4 |
| SignUpPage.ColorMatchesText | src/pages/SignUp.tsx:105-117 | two scores get the same colour iff they get the same label |
| SignUpPage.SignUpErrorText | src/pages/SignUp.tsx:72-82 | the account-exists text first, else the password-length text, else the message itself or the default |
| SignUpPage.SignUpErrorTextNonEmpty | src/pages/SignUp.tsx:72-82 | the shown error is never empty |
| SignUpPage.SignUpPageState.constructor | src/pages/SignUp.tsx:22-23 | no error, not loading, no calls, no navigation |
| SignUpPage.SignUpPageState.HandleInputChange | src/pages/SignUp.tsx:30-33 | editing clears the error |
| SignUpPage.SignUpPageState.HandleSubmit | src/pages/SignUp.tsx:47-92 | a validation failure is shown before any call, with loading left on; otherwise one sign-up call, then the mapped error, the navigation, or the unexpected-error text |
| SignInPage.SignInErrorText | src/pages/SignIn.tsx:28-40 | invalid credentials first, then unconfirmed email, then too many requests; otherwise the message itself, or the default when it is empty |
| SignInPage.SignInErrorTextShape | src/pages/SignIn.tsx:28-40 | the shown error is never empty, and a message naming no known phrase is shown as it is |
| SignInPage.SignInPageState.constructor | src/pages/SignIn.tsx:15-16 | no error, not loading, no calls, no navigation |
| SignInPage.SignInPageState.HandleSubmit | src/pages/SignIn.tsx:20-51 | one sign-in call; success navigates to /module; a returned error clears loading and shows the mapped text without navigating; a throw shows the unexpected-error text |
| ProblemFlow.IdsDistinct | src/hooks/useProblemFlow.tsx:19 | distinct counter values give distinct identifiers |
| ProblemFlow.FreshStartExists | src/hooks/useProblemFlow.tsx:19 | every store, whatever logs it holds, leaves a counter value past all its identifiers, so the hook can always be mounted |
| ProblemFlow.AdvanceSpec | src/hooks/useProblemFlow.tsx:139-150 | at the last position only completion is set; elsewhere the position moves strictly forward, to the next subproblem or to (p + 1, 1), within the maxima |
| ProblemFlow.LastUnitCompletes | src/hooks/useProblemFlow.tsx:139-150 | advancing from the last subproblem of the last problem completes the run |
| ProblemFlow.HistoryItems | src/lib/databaseService.ts:25-35 | the history the server reads has one item per row and none with 'content' |
| ProblemFlow.ToServerPayload | src/hooks/useProblemFlow.tsx:123-129 | the posted body carries the request's action, texts and history, and no 'userResponse' |
| ProblemFlow.StreamingServerNeedsEmptyHistory | BACKEND/streaming.py:21 | streaming.py raises on the hook's request iff its history is non-empty |
| ProblemFlow.TestingServerRejectsEveryAnswer | BACKEND/testingStream.py:21 | every 'validate' request the hook sends gets the verdict false first |
| ProblemFlow.StampById | src/hooks/useProblemFlow.tsx:247-252 | same length; the time is set exactly on entries with that id; the others are unchanged |
| ProblemFlow.StampFresh | src/hooks/useProblemFlow.tsx:247-252 | stamping an entry's fresh id changes only that last entry |
| ProblemFlow.ProblemFlowState.constructor | src/hooks/useProblemFlow.tsx:20-31 | mounts over a store that may already hold earlier sessions' logs; empty history, loading, position (1, 1) incomplete, no session, no requests, the counter past every stored identifier |
| ProblemFlow.Verdict | src/hooks/useProblemFlow.tsx:254-268 | correct only when the reply says so and its save succeeded |
| ProblemFlow.SavedReply | src/hooks/useProblemFlow.tsx:254-262 | the store gains the reply entry iff the save succeeded |
| ProblemFlow.ProblemFlowState.SendToAI | src/hooks/useProblemFlow.tsx:210-269 | exactly one AI placeholder with an empty message is appended and stamped by id; the request is posted once; the store gets the full reply when the save succeeds; the result is `Verdict`, so a failed save answers incorrect |
| ProblemFlow.LoadEffect | src/hooks/useProblemFlow.tsx:41-72 | with no units nothing changes; otherwise the position and history are the stored ones, and exactly one 'initialize' request, for the unit at the stored position, is made iff the run is incomplete, has no history and its unit exists; its reply is stored iff saved |
| ProblemFlow.ProblemFlowState.OpenSession | src/hooks/useProblemFlow.tsx:37-38 | the table and the session are those of `SessionOutcome`; a session is kept, a thrown error keeps the old one; two fresh identifiers are used; the loaded view is unchanged |
| ProblemFlow.ProblemFlowState.LoadSessionContent | src/hooks/useProblemFlow.tsx:40-72 | the units are kept and the position, history, requests and stored log change as `LoadEffect` states |
| ProblemFlow.ProblemFlowState.Initialize | src/hooks/useProblemFlow.tsx:34-83 | when opening the session throws, nothing is loaded; otherwise the session is opened and then the units loaded as `LoadEffect` states; loading ends cleared |
| ProblemFlow.ProblemFlowState.MoveToNextProblem | src/hooks/useProblemFlow.tsx:136-208 | at the last position: completion saved, exactly one fixed AI entry, no request; elsewhere: the new position saved and one 'next' request carrying the closure's history |
| ProblemFlow.ProblemFlowState.CompleteRun | src/hooks/useProblemFlow.tsx:149-183 | the run is saved complete at its position; one completion entry is added locally and one stored; no request |
| ProblemFlow.ProblemFlowState.StepForward | src/hooks/useProblemFlow.tsx:186-207 | the new position is set and saved; when its unit exists, one 'next' request with the closure's history and one placeholder, otherwise nothing more |
| ProblemFlow.ProblemFlowState.RecordAnswer | src/hooks/useProblemFlow.tsx:96-110 | the answer is appended to the history and stored, tagged with the current position |
| ProblemFlow.ProblemFlowState.ValidateAnswer | src/hooks/useProblemFlow.tsx:112-133 | one 'validate' request whose history ends with the answer; advance only on a correct, saved verdict |
| ProblemFlow.ProblemFlowState.HandleUserResponse | src/hooks/useProblemFlow.tsx:91-134 | the answer is recorded before validation; a correct, saved verdict advances, sending 'next' with the history from before the answer; otherwise the position is unchanged |
| ProblemFlow.ProblemFlowState.HandleRestartModule | src/hooks/useProblemFlow.tsx:271-306 | throws iff the restart or the unit load fails; otherwise state resets to (1, 1) incomplete with an empty history and one 'initialize' request for unit (1, 1) |
| Text.NatToStringRoundTrip | src/lib/weekContent.ts:34 | reading back a rendered number gives the number |
| Text.LJust | BACKEND/handleExit.py:36-41 | `ljust`: pads on the right with the fill up to the width, never truncates, keeps the input as a prefix |
| Text.Words | BACKEND/streaming.py:52 | `split()` yields non-empty words without whitespace |
| Text.WordsOfWordThenRest | BACKEND/streaming.py:52 | a word followed by a space splits off as the first word |

## Left out

- The JSON codec, `TextDecoder` and reader chunk boundaries are abstract. Frames are a datatype, and the body arrives as one decoded buffer.
- Asynchrony: every awaited call is one step of the method that makes it, and handlers do not interleave. The 800 ms hint delay, `time.sleep`, the back end's threads, queues and disconnect handling are not modelled.
- Supabase and the auth client are outside the model. Their results are parameters: rows, an `AuthOutcome`, a success flag, or `None` for a thrown error. The flags cover the requests of `initializeSession` (resume query, insert, history load) and the reply save inside `sendToAI`.
- ProblemFlow.ProblemFlowState.RecordAnswer: a `saveMessage` that throws would end `handleUserResponse` before validation; this save is taken to succeed.
- ProblemFlow.ProblemFlowState.CompleteRun: an `updateProgress` or `saveMessage` that throws would end `moveToNextProblem` early; both are taken to succeed.
- ProblemFlow.ProblemFlowState.StepForward: an `updateProgress` that throws would end `moveToNextProblem` before the request; it is taken to succeed.
- ProgressStore.ChatHistoryOf: entries with the same `time_sent` keep their stored order. The database leaves the order of ties unspecified.
- `Date.now`, `datetime.now`, `datetime.fromisoformat` and `crypto.randomUUID` are parameters, or a counter for identifiers. Each handler call reads one `now`, so the two `Date.now` calls of `logHintInteraction` see the same time.
- Floating point: the rounded figures are exact integer rounding, and the code-changes-per-minute figure is not modelled.
- Strings are sequences of characters, with no UTF-16 lengths or Unicode case rules. Only the whitespace sets of `trim` and `split` are modelled.
- The numeric `setInterval` ticking is one `Tick(now)` call per tick.
- Sign-up user metadata and the contents of the sign-up and sign-in calls beyond the form itself are not modelled.
- The week number is kept as the string key of the cache; `parseInt(weekNumber)` is the hook's integer module number.
- The UI-only pages and components, the Pyodide and editor wrappers, the static hint data and the routing are outside the core.
- `getMaxProblemIndex` and `getMaxSubproblemIndex` return `None` where JavaScript returns −Infinity. Comparisons with that value are kept.
- `EndTimer.TimeLogStore.EndSubproblemTimer`: the ISO rendering of the end time and the timezone arithmetic of `fromisoformat` are folded into the `parseIso` parameter and a microsecond count.
- `StreamClient.SendToAI`: a stream split by the reader inside a frame, and the raise of `streaming.py` after some frames were sent, are not modelled. The server either yields all its frames or raises before the first.
- `TestStream.TestStreamSpec`: Python's `str(input_data)` rendering is a parameter.
