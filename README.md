# ASL and lip-reading assistant: a verified model of its core logic

This Dafny project models the sequential logic of a Flask application that
turns sign language and lip movement into text, and text or speech into sign
animations, together with the logic of its browser scripts. The model has
one module per part of the system:

- `TextToSign` (text_to_sign.dfy) models the `/convert_text_to_asl` converter. It cleans
  the text, splits it into tokens and covers them greedily from left to right.
  At each position it takes the longest listed phrase of six down to two tokens.
  Otherwise it takes the single token after one variation. It then looks up an
  animation path, with `''` when there is none. `SignTables` holds the vocabulary
  shape shared with the browser's voice page. `TextUtil` holds the character
  classes, case mapping, strip and split of both Python and JavaScript over ASCII.
- `AslRecognition` (asl_recognition.dfy) models the server's `ASLRecognitionSystem`: the
  running text with its 1.5 s cooldown, `clear_text`, `add_space`,
  `backspace`, `get_stats`, and the threshold clamp of `/adjust_sensitivity`.
- `LipReading` (lip_reading.dfy) models the server's `ImprovedLipReadingDetector`: the two
  histories bounded at 30 entries, the 10-entry analysis guard, the best
  match above 0.6, and word acceptance above 0.65 with a 2 s cooldown.
- `History` (history.dfy) models the `conversion_history` table as a sequence of records with an
  auto-increment id. It covers insert, save with defaults, newest-first
  listing with a type filter and limit, delete by id, clear all or by type,
  and statistics. `Routes` (routes.dfy) models the two prediction endpoints that
  save into it, and `clear_lip_text`.
- `Camera` (camera.dfy) models the browser's `ASLCamera` and `LipReadingCamera`: the
  running text, the cooldown that differs from the server's, the
  start/stop flags with their interval handles, the capture guard, and
  the history saves each accepted sign or word issues.
- `VoiceToSign` (voice_to_sign.dfy) models the browser's `VoiceToASL`: the first-match phrase
  rule, per-token cleaning with a 2.5 s stagger, and one variation before
  lookup with a text-card fallback. It also covers the `isListening` flag driven
  by the speech recogniser's callbacks. `VoiceTables` holds its literal tables,
  whose duplicate keys keep the later value.
- `SignPlayer` (sign_player.dfy) models the browser's `TextToASL` player: input
  handling, then a queue and a cursor that advance once per timer firing,
  with completion, replay and clear. A firing of the pending timer is an
  explicit `Step`.
- `CtcDecoder` (ctc_decoder.dfy) models greedy CTC decoding of an id sequence over the
  36-entry character list, and the `predict` guard.

Clocks, detector output, speech-recogniser outcomes and server replies are
parameters of the operations that use them.

## Model

| member | source | states |
|---|---|---|
| TextUtil.StripEmptyIff | app.py:759-762 | stripped text is empty exactly when every character is whitespace (Python's or JavaScript's set) |
| TextUtil.StripStartsWithNonSpace | app.py:852-853 | stripped non-empty text starts with a non-space character |
| TextUtil.StripBlock | app.py:852 | stripped text is the block of the input that starts after the leading spaces |
| TextUtil.StripTail | app.py:852 | everything after the stripped block is whitespace |
| TextUtil.Split | app.py:860 | `str.split()` yields only non-empty tokens that contain no whitespace |
| TextUtil.SplitEmptyIff | app.py:855-860 | `str.split()` yields no tokens exactly when the text is all whitespace |
| TextUtil.JoinSplit | app.py:860 | joining the `str.split()` tokens with one space gives the text with every whitespace run collapsed to one space and the ends stripped |
| TextUtil.SplitJoin | app.py:860 | `str.split()` takes apart again non-empty space-free tokens joined with one space |
| TextUtil.SplitOnSpaceRuns | static/voice-to-asl.js:212 | `split(/\s+/)` yields at least one piece, none containing whitespace |
| TextUtil.JoinSplitOnSpaceRuns | static/voice-to-asl.js:212 | joining the `split(/\s+/)` pieces with one space gives the text with every whitespace run collapsed to one space |
| TextUtil.SplitOnSpaceRunsJoin | static/voice-to-asl.js:212 | `split(/\s+/)` takes apart again space-free pieces joined with one space, when only the first or last piece is empty |
| TextUtil.TakeWord | app.py:860 | a token is a whitespace-free prefix that ends at whitespace or at the end of the input |
| SignTables.VariationCases | app.py:880 | one variation step leaves a word alone or maps it to a listed replacement |
| TextToSign.CollapseSpaces | app.py:853 | collapsing whitespace runs is empty only on empty input and keeps a non-space first character |
| TextToSign.PhraseLenFrom | app.py:868-876 | the chosen length is the longest listed phrase of at most the given length, or 1 when none is listed |
| TextToSign.Indices | app.py:861 | the used-position set holds exactly the positions before the cursor |
| TextToSign.LongestPhraseAt | app.py:868-876 | the downward loop over lengths 6..2 finds the greedy length, and reports a match iff it is at least 2 |
| TextToSign.ItemAt | app.py:863-883 | one iteration emits the greedy item at an unused position and marks exactly its tokens used |
| TextToSign.Scan | app.py:858-883 | the scan loop produces the greedy word list, and each animation is the lookup of its word |
| TextToSign.ConvertWith | app.py:755-892 | the converter computes the conversion function for any vocabulary |
| TextToSign.ConvertTextToAsl | app.py:755-892 | the endpoint with its own tables computes the conversion function |
| TextToSign.WordsOf | app.py:858-883 | one word per span |
| TextToSign.SpansTile | app.py:863-883 | the greedy spans cover every token exactly once, in order |
| TextToSign.SpansGreedy | app.py:868-882 | each span starts inside the input and has the greedy length at its start |
| TextToSign.SpansInBounds | app.py:868-882 | every span lies inside the token list |
| TextToSign.ScanAccIsWordsOf | app.py:863-883 | the accumulated scan equals the words of the greedy spans |
| TextToSign.LowerCharClasses | app.py:852 | lower-casing keeps word characters, apostrophes and whitespace in their classes |
| TextToSign.NoTextIff | app.py:759-762 | the "No text provided" error happens exactly when the input is all whitespace |
| TextToSign.CleanedEmptyIff | app.py:852-856 | the cleaned text is empty exactly when the input has no word character and no apostrophe |
| TextToSign.ConvertFailsIff | app.py:759-856 | conversion fails exactly when the input has no word character and no apostrophe |
| TextToSign.ConvertedShape | app.py:872-882 | a conversion has at least one word, as many animations as words, and each animation is its word's lookup with `''` as default |
| TextToSign.ConvertedItems | app.py:858-883 | a conversion's words are the greedy tiling of the tokens: every token consumed once, in order, each item the longest phrase or the single varied token |
| AslRecognition.Clamp | app.py:967 | the threshold lies in [0.3, 0.95], equal to the input inside that range and the nearer bound outside it |
| AslRecognition.ClampIdempotent | app.py:967 | clamping twice is clamping once |
| AslRecognition.ClampMonotone | app.py:967 | clamping keeps the order of thresholds |
| AslRecognition.WithSpaceShape | app.py:204-207 | `add_space` is a no-op on empty text and otherwise leaves exactly one trailing space |
| AslRecognition.WithSpaceIdempotent | app.py:204-207 | a second `add_space` changes nothing |
| AslRecognition.WithoutLastUndoesAppend | app.py:209-212 | `backspace` drops exactly one character and is a no-op on empty text |
| AslRecognition.AslRecognitionSystem.constructor | app.py:141-151 | a new system has no text, no last label, time 0, default threshold and zero counters |
| AslRecognition.AslRecognitionSystem.ProcessImage | app.py:153-197 | the new recogniser state and the reply are those of `Processed` on the old state, the frame and the clock |
| AslRecognition.ProcessedReportsDetection | app.py:153-197 | the threshold is kept, and a reply with a label is a success carrying the frame's label and confidence, above the threshold |
| AslRecognition.AslRecognitionSystem.ClearText | app.py:199-202 | the text and the last label go, the last time and counters stay |
| AslRecognition.AslRecognitionSystem.AddSpace | app.py:204-207 | the text gains at most one trailing space, nothing else changes |
| AslRecognition.AslRecognitionSystem.Backspace | app.py:209-212 | the text loses its last character, nothing else changes |
| AslRecognition.AslRecognitionSystem.GetStats | app.py:214-227 | the average is 0 with no successes, and otherwise the confidence total divided by the successes, above the 0.3 floor |
| AslRecognition.AslRecognitionSystem.AdjustSensitivity | app.py:961-975 | the new threshold is the clamped request (0.65 when absent) and is returned; nothing else changes |
| AslRecognition.MeanAbove | app.py:216-218 | a mean of confidences that each passed the floor is above the floor |
| LipReading.PushBounded | app.py:246-247 | appending to a 30-entry deque grows it by one until it is full |
| LipReading.PushBoundedKeepsNewest | app.py:246-247 | the deque never exceeds 30 entries, keeps the newest ones and ends with the new value |
| LipReading.BestMatch | app.py:329-349 | the loop returns `Best` of the scores: the first strictly best score above 0.6, and no word exactly when no score passes 0.6 |
| LipReading.BestIsFirstMaximum | app.py:329-349 | `Best` is the first strictly highest score above 0.6, and no word exactly when no score passes 0.6 |
| LipReading.FirstMaximumUnique | app.py:329-349 | any word and score meeting that description are the ones `Best` returns |
| LipReading.LipReadingDetector.constructor | app.py:237-269 | a new detector has no text, no last word, empty histories and zero counters |
| LipReading.LipReadingDetector.Analyze | app.py:308-349 | fewer than 10 openness entries gives no word; otherwise the word and score are `Best` of the scores, and there is no word exactly when no score passes 0.6 |
| LipReading.LipReadingDetector.ProcessFrame | app.py:351-405 | the new tracker fields and the report are those of `Observe` on the old fields; with enough history the report is `Best` of the scores; without face mesh nothing changes; no face empties both histories; a word above 0.65, past the 2 s cooldown and different from the last is appended with one space, emptying both histories |
| LipReading.ObserveAppendsBest | app.py:373-392 | the only text a frame adds is the best match of the scores, above 0.65, followed by one space, and only with face mesh, a face and at least 10 entries |
| LipReading.ObserveReportsBest | app.py:351-405 | a frame reports a word only with face mesh, a face and at least 10 entries, and the word and score are then `Best` of the scores |
| LipReading.LipReadingDetector.Accept | app.py:386-395 | accepting appends the word and a space, records it with the time, counts it, and empties both histories |
| LipReading.LipReadingDetector.ClearText | app.py:411-415 | the text, the last word and both histories are cleared; the last time and counters stay |
| History.Where | app.py:607-625 | a filter never returns more rows than it is given |
| History.NewestFirst | app.py:612-625 | reversing keeps the number of rows |
| History.WhereMembers | app.py:607-625 | a filter keeps exactly the rows satisfying it |
| History.WhereKeepsOrder | app.py:607-625 | filtering keeps ids increasing |
| History.NewestFirstMembers | app.py:612-625 | ordering by id descending keeps exactly the same rows |
| History.NewestFirstDecreasing | app.py:612-625 | rows kept in insertion order come out highest id first |
| History.WherePartition | app.py:911-919 | a filter and its negation split the rows |
| History.ListingBounded | app.py:601-625 | a listing has at most `limit` rows (100 when absent; a negative limit means no limit) |
| History.ListingSoundAndOrdered | app.py:600-625 | every listed row is in the table, of the requested type unless the type is absent or "all", highest id first |
| History.ListingComplete | app.py:600-625 | when the limit is large enough (or negative), every matching row is listed |
| History.ByType | app.py:664-668 | the per-type counts hold exactly the types present, each with its number of rows |
| History.SumPositive | app.py:671 | a sum of positive confidences is positive |
| History.AveragePositiveIff | app.py:671-672 | the average over positive confidences is positive exactly when some row has a positive confidence |
| History.AverageIsMean | app.py:671-672 | the average is 0.0 without positive confidences, and otherwise times their count equals their sum |
| History.PositiveAllPositive | app.py:671 | the positive-confidence filter keeps only positive confidences |
| History.HistoryTable.constructor | app.py:52-82 | a new table is empty and the next id is 1 |
| History.HistoryTable.Insert | app.py:452-468 | the row is appended with the next id, which then advances |
| History.HistoryTable.Save | app.py:723-737 | a save appends a row with each absent field defaulted, under the next id |
| History.HistoryTable.GetHistory | app.py:598-652 | the result is the listing: rows of the table, filtered by type, highest id first |
| History.HistoryTable.Delete | app.py:697-707 | exactly the rows with that id go, and "found" holds iff there was one |
| History.HistoryTable.Clear | app.py:906-919 | with a non-empty type only that type's rows go, otherwise all; the count is the number deleted |
| History.HistoryTable.GetStatistics | app.py:661-683 | the total is the row count, the per-type counts are exact, and the average is `AverageConfidence` of the rows |
| History.DeleteCount | app.py:697-707 | deleting shrinks the table exactly when the id is present |
| History.ClearKindExact | app.py:911-919 | clearing a type deletes exactly its rows and keeps every other row |
| History.WhereAll | app.py:911-919 | a filter that every row passes keeps them all |
| History.InsertThenDelete | app.py:697-707 | deleting the row just inserted gives back the previous table |
| Routes.PredictAsl | app.py:437-477 | an empty image answers 400 and changes nothing; otherwise the reply and the new recogniser state are `Processed` of the old state, exactly the stored labels add one "asl-to-text" row, and a stored row is a success carrying the frame's label above the threshold |
| Routes.PredictLip | app.py:480-545 | no lip reader answers 503, an empty image 400, a decode error 500, all with no change; otherwise the new tracker fields, confidence and status are those of `Observe`, a kept word adds one "lip-reading" row and is `Best` of the scores, and no word answers "Analyzing..." |
| Routes.ClearLipText | app.py:569-574 | a present lip reader is cleared while its last-word time and counters stay, a missing one is tolerated |
| Camera.SaveCountAppend | static/camera.js:24-28 | each history save request adds one to the count |
| Camera.Started | static/camera.js:264 | starting an interval adds one fresh live handle |
| Camera.Cleared | static/camera.js:274-276 | clearing removes only the stored handle |
| Camera.StartThenStop | static/camera.js:246-281 | a start followed by a stop leaves the same live intervals |
| Camera.DoubleStartLeaks | static/camera.js:264-276 | starting twice and stopping once leaves the first interval live |
| Camera.WithSign | static/camera.js:387-391 | a one-character label is appended bare, a longer one with exactly one trailing space |
| Camera.BackendAcceptanceImpliesFrontend | static/camera.js:380-386 | given the same last sign and time, a sign the server accepts, scored above 0.5, is also added by the browser |
| Camera.SeparateStatesDiverge | static/camera.js:380-386 | with each side keeping its own last sign and time, the server and the browser can disagree in both directions |
| Camera.RepeatAcceptedOnlyByFrontend | static/camera.js:380-386 | the browser re-adds a repeated sign after its 1 s cooldown, while the server refuses it |
| Camera.AslCamera.constructor | static/camera.js:95-127 | a new camera has no stream, no interval, empty text and zero counters |
| Camera.AslCamera.ModelStatus | static/camera.js:142-185 | a reported model makes `modelLoaded` true; no other field changes |
| Camera.AslCamera.StartCamera | static/camera.js:187-222 | a granted camera keeps its stream; the start time is set only once the video also plays; a refusal changes neither; no other field changes |
| Camera.AslCamera.StartProcessing | static/camera.js:246-270 | with no stream or no model nothing changes, otherwise processing starts one more interval without clearing the old; only the processing flag and timers can change |
| Camera.AslCamera.StopProcessing | static/camera.js:272-281 | processing is off and the stored interval is cleared, however often it is called; nothing else changes |
| Camera.AslCamera.StopCamera | static/camera.js:224-244 | the stream and processing are off; text, counters, start time and requests stay |
| Camera.AslCamera.CaptureAndPredict | static/camera.js:283-308 | a frame is sent exactly when processing is on; nothing else changes |
| Camera.AslCamera.HandlePrediction | static/camera.js:310-408 | a missing label, "No Hand" or "Error" changes nothing but the model flag; otherwise it is counted and, above 0.5 and new or past the 1 s cooldown, appended with one history save |
| Camera.AslCamera.AddSign | static/camera.js:387-404 | the accepted sign is appended and recorded, and one "asl-to-text" save is issued |
| Camera.AslCamera.ClearText | static/camera.js:410-425 | the text and the last sign are cleared, the server is asked to clear, and every other field stays |
| Camera.LipCamera.constructor | static/camera.js:467-496 | a new lip camera has no stream, no interval, empty text and zero counters |
| Camera.LipCamera.StartCamera | static/camera.js:511-544 | a granted camera keeps its stream; the start time is set only once the video also plays; a refusal changes neither; no other field changes |
| Camera.LipCamera.StartProcessing | static/camera.js:568-585 | with no stream nothing changes, otherwise processing starts one more interval; only the processing flag and timers can change |
| Camera.LipCamera.StopProcessing | static/camera.js:587-595 | processing is off and the stored interval is cleared; nothing else changes |
| Camera.LipCamera.StopCamera | static/camera.js:546-566 | the stream and processing are off; text, counters, start time and requests stay |
| Camera.LipCamera.CaptureAndPredict | static/camera.js:597-628 | a frame is counted and sent exactly when processing is on; nothing else changes |
| Camera.LipCamera.HandlePrediction | static/camera.js:630-709 | an empty prediction, "No Face" or "Analyzing..." leaves the text alone; otherwise a new non-empty server text replaces it with one word counted and one save |
| Camera.LipCamera.ClearOutput | static/camera.js:711-725 | the text is cleared and the server is asked to clear |
| VoiceToSign.DisplayFor | static/voice-to-asl.js:228-254 | the word is lower-cased and varied once; a mapped word shows its GIF for 3 s, an unmapped one a "No animation available" card for 2.5 s |
| VoiceToSign.FirstPhrase | static/voice-to-asl.js:201-208 | the result is the first listed phrase contained in the text, and none exactly when no phrase is contained |
| VoiceToSign.Clean | static/voice-to-asl.js:219 | a cleaned token keeps only word characters and apostrophes |
| VoiceToSign.CleanIdempotent | static/voice-to-asl.js:219 | cleaning twice is cleaning once |
| VoiceToSign.CleanAppend | static/voice-to-asl.js:219 | cleaning works character by character: the cleaning of a concatenation is the concatenation of the cleanings |
| VoiceToSign.CleanChar | static/voice-to-asl.js:219 | a single character survives exactly when it is a word character or an apostrophe |
| VoiceToSign.CleanEmptyIff | static/voice-to-asl.js:219-220 | a token cleans to nothing, and so is skipped, exactly when it has no word character and no apostrophe |
| VoiceToSign.CleanKeepsClean | static/voice-to-asl.js:219 | a token that is already clean is unchanged |
| VoiceToSign.SlotItems | static/voice-to-asl.js:220-224 | a position yields one scheduled word exactly when its cleaned token is non-empty |
| VoiceToSign.ScheduleSound | static/voice-to-asl.js:218-225 | every scheduled item is the cleaned, non-empty token of its position |
| VoiceToSign.ScheduleOrdered | static/voice-to-asl.js:218-225 | scheduled positions strictly increase |
| VoiceToSign.ScheduleComplete | static/voice-to-asl.js:218-225 | every position with a non-empty cleaned token is scheduled |
| VoiceToSign.ScheduleExact | static/voice-to-asl.js:217-226 | position i is shown at i x 2500 ms, skipped tokens still count, delays increase, and every non-empty token is scheduled |
| VoiceToSign.PlanCases | static/voice-to-asl.js:197-214 | a phrase is shown exactly when one is contained, and then it is a listed contained phrase; otherwise the words are scheduled |
| VoiceToSign.Shown | static/voice-to-asl.js:188-193 | the display always ends with the new text |
| VoiceToSign.ShownJoins | static/voice-to-asl.js:188-193 | the placeholder is replaced, other text gets the new text after one space |
| VoiceToSign.Listener.constructor | static/voice-to-asl.js:3-8 | a new listener is neither initialised nor listening |
| VoiceToSign.Listener.Init | static/voice-to-asl.js:106-180 | no support or a failing constructor shows a message and changes nothing else; success initialises |
| VoiceToSign.Listener.OnStart | static/voice-to-asl.js:124-129 | the listener is listening |
| VoiceToSign.Listener.OnError | static/voice-to-asl.js:141-157 | "no-speech" changes nothing; any other error stops listening with its message, the denied-microphone one for "not-allowed" |
| VoiceToSign.Listener.OnEnd | static/voice-to-asl.js:159-171 | recognition restarts exactly when it was listening and the restart does not throw; otherwise listening is off |
| VoiceToSign.Listener.StopListening | static/voice-to-asl.js:395-407 | the state changes only when a recogniser exists, is listening and stops without throwing |
| VoiceToSign.Listener.StartListening | static/voice-to-asl.js:363-393 | uninitialised, it initialises with the three outcomes of `Init`; otherwise the recogniser flags are kept, no recogniser reports unavailable, listening stops instead, and otherwise it starts or reports the error and is off |
| VoiceTables.RepeatedGoodbyeKeepsLast | static/voice-to-asl.js:19-52 | the repeated "goodbye" key keeps the later `bye.gif` |
| VoiceTables.RepeatedHiKeepsLast | static/voice-to-asl.js:18-60 | the repeated "hi" key keeps the later `hi.gif` |
| VoiceTables.PardonUnreachable | static/voice-to-asl.js:59 | no lower-cased word equals the capitalised key "Pardon" |
| VoiceTables.WantShowsNoAnimation | static/voice-to-asl.js:87-102 | "want" varies to the unmapped "wanna" and shows a text card |
| SignPlayer.FrameFor | static/text-to-asl.js:209-302 | the caption is the upper-cased word; a truthy path shows the image, a falsy one the "Animation not available" fallback |
| SignPlayer.CompletionSave | static/text-to-asl.js:176-189 | the save is a "text-to-asl" record of the trimmed input with the words joined by single spaces and their count |
| SignPlayer.TextToAslPlayer.constructor | static/text-to-asl.js:6-69 | a new player is idle with an empty queue |
| SignPlayer.TextToAslPlayer.Type | static/text-to-asl.js:111-119 | the text box holds the typed text |
| SignPlayer.TextToAslPlayer.PlayNextAnimation | static/text-to-asl.js:173-207 | past the end playback stops with one completion save; otherwise the current pair is shown, the index moves by one and one more step is pending |
| SignPlayer.TextToAslPlayer.PlayAnimationSequence | static/text-to-asl.js:162-171 | no animations warns and changes nothing; otherwise they are cached and playback starts |
| SignPlayer.TextToAslPlayer.Step | static/text-to-asl.js:173-207 | one timer firing consumes a pending step and either shows the next pair or completes |
| SignPlayer.TextToAslPlayer.ConvertText | static/text-to-asl.js:110-160 | blank input warns and sends nothing; otherwise the trimmed text is sent, the start time set, and a failure notifies with nothing else changed |
| SignPlayer.TextToAslPlayer.ShowWords | static/text-to-asl.js:139-152 | an empty word list warns and starts nothing; otherwise playback starts from index 0 |
| SignPlayer.TextToAslPlayer.ReplayAnimation | static/text-to-asl.js:305-315 | no cached animations warns and changes nothing; otherwise the cursor restarts at 0 over the cached list, with no request |
| SignPlayer.TextToAslPlayer.ClearAll | static/text-to-asl.js:317-332 | the queue and cache are empty, the index 0 and playback off; a pending step is not cancelled |
| SignPlayer.StartedPlayback | static/text-to-asl.js:110-171 | after converting text the first word is on show with one step pending |
| SignPlayer.PlayThrough | static/text-to-asl.js:173-207 | stepping to the end shows every word with its animation in order, then saves once |
| SignPlayer.ClearDuringPlayback | static/text-to-asl.js:317-332 | a step left pending by clear still completes, saving one empty record |
| SignPlayer.ReplayDuringPlayback | static/text-to-asl.js:305-315 | replay while playing leaves two timer chains pending |
| CtcDecoder.DecodeCtcOutput | model_loader.py:223-239 | the loop returns the concatenated symbols of the decoding function |
| CtcDecoder.SymbolsBounded | model_loader.py:230-239 | at most one symbol per time step, each from the character list after the blank |
| CtcDecoder.BlankNeverEmitted | model_loader.py:233 | "<blank>" is never emitted |
| CtcDecoder.BlankListedOnce | model_loader.py:76-81 | "<blank>" occurs only at id 0 |
| CtcDecoder.BlankEmitsNothing | model_loader.py:233 | a trailing blank adds nothing |
| CtcDecoder.RepeatEmitsNothing | model_loader.py:233-237 | repeating the last id adds nothing |
| CtcDecoder.RunEmitsOnce | model_loader.py:233-237 | a run of one id emits what a single occurrence emits |
| CtcDecoder.Run | model_loader.py:230 | a run is n copies of one id |
| CtcDecoder.OutOfRangeSuppressesRepeat | model_loader.py:234-237 | an out-of-range id emits nothing and still suppresses an equal id after it |
| CtcDecoder.KeepAppend | model_loader.py:234-235 | the lookup of in-range ids distributes over concatenation |
| CtcDecoder.SymbolsIsCollapseThenDrop | model_loader.py:230-239 | decoding is collapsing repeats then dropping blanks and out-of-range ids |
| CtcDecoder.DecodeExample | model_loader.py:223-239 | ids 10, 10, 0, 11 decode to "hi" |
| CtcDecoder.Predict | model_loader.py:142-153 | no model or fewer than 10 frames gives (None, 0.0), and a word exists only past both guards with an inference |

## Left out

- I/O: Flask routing and JSON, `fetch`, SQLite connections, camera streams, canvas, base64 and image decoding, DOM updates, notification toasts and logging. Their outcomes are parameters, and the DOM text the model keeps is a field.
- Timers and callbacks run as explicit steps with the clock as a parameter. Overlapping requests and in-flight replies after a stop are not interleaved.
- Machine learning: YOLO detection, MediaPipe face mesh, `calculate_lip_features`, the scoring in `analyze_temporal_sequence`, the torch model, frame preprocessing, the argmax over logits and the random choice in `predict`. The label, confidence, per-word scores and id sequence are inputs.
- Character classes and case mapping cover ASCII only. Python's Unicode `\w`, `isspace` and `lower()` beyond ASCII are not modelled.
- JavaScript's lookup of object keys inherited from the prototype (such as `wordToGif["constructor"]`) is not modelled. The tables are finite maps.
- `Routes.SignRecord` and `Routes.WordRecord` render the metadata dict as a string without `repr` escaping of quotes in the label.
- Database exceptions on save, delete and clear, and the 500 replies of the routes' `except` branches, are left out, except for image decoding. `predict_asl` decodes inside `process_image`, whose own `except` answers with an "Error" prediction: the model passes a failed decoding as a missing frame (`frame == None`). `predict_lip` decodes in the route itself, and a failure answers 500 with nothing changed (`decodeError`).
- `LipReading.LipReadingDetector.ProcessFrame`: the exception path of `process_frame` (an error after the counter has gone up) is not modelled.
- The lip camera's display-only fields and statistics elements are left out.
- `VoiceToSign.Listener`: the `onresult` loop that splits interim and final transcripts is not modelled. Its final text is the input of `PlanFor`.
- `VoiceToSign.Listener.StartListening`: the one-second retry after initialising is not modelled. The call reports `Initialising`.
- The `init` wiring of event handlers in each browser class, and missing DOM elements (which the browser code logs and skips), are left out.
- `SignPlayer.TextToAslPlayer.ConvertText`: the `await` between sending and receiving is one step. Edits made to the page during a request are not modelled.
- `SignPlayer.FrameFor`: the image `onerror` fallback to the text card for a path that fails to load is not modelled. It depends on the network.
- `SignPlayer.TextToAslPlayer.PlayAnimationSequence`: a missing `animations` list in the reply is modelled as an empty list, which the source treats the same way.
- `AslRecognition.AslRecognitionSystem.GetStats`: confidences, thresholds and times are exact `real` numbers; the rounding of Python and JavaScript floating point is not modelled. The promise that the average is above the 0.3 floor holds over the reals only: with doubles, 25 confidences each above 0.3 can sum to 7.499999999999998, and the division then gives 0.29999999999999993. The same applies to `AslRecognition.MeanAbove`.
- `Camera.AslCamera.HandlePrediction`: the server reply never carries `model_loaded`, so the source sets the flag to `undefined`. The model represents this as `modelLoaded` becoming false.
- `VoiceToSign.DisplayFor`: the image `onerror` fallback, which replaces a sign image that fails to load with the text card, is not modelled. It depends on the network, and the model shows the image for every path it finds.
- `VoiceToSign.Schedule`: the schedule records the word and its delay. The display it will show is `DisplayFor` of that word at firing time, as the source computes it then.
- `static/history.js`, `test_webcam.py` and `webcam_test.py` are not part of this model: an HTTP client with HTML templates, and interactive webcam scripts.
