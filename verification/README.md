# Hanzi racing: audio manager, exam store and helpers in Dafny

This project models the core of a children's Chinese-character learning game.
The model has three parts.

- **The audio manager** (`AudioManager` singleton). It plays a character's MP3
  clip, trying the literal file name first and then the percent-encoded one,
  and falls back to speech synthesis. It speaks praise and encouragement, or
  plays an MP3 ladder of three files when synthesis is not supported. It keeps
  all of this behind one `isSpeaking` flag and a queue of pending playback
  tasks, prefetches clips, and decides from the user agent whether speech
  synthesis is usable and how long to wait before speaking.
- **The application store.** It generates an exam for a stage: for every
  character of the stage, one question with three distinct distractors drawn
  at random from all characters, and the four options in random order. It
  records answers and the score, completes an exam (stage record, unlocking
  of the next stage), unlocks stages and resets the progress.
- **The helpers.** These are the stage and character lookups, score and time
  labels, the score rating and the Fisher-Yates shuffle.

Modules, following the program's structure:

- `Wrappers`: Option and Result.
- `Text`: the JavaScript string primitives the source relies on (`includes`,
  case-insensitive tests, `trim`, UTF-16 `length`, decimal rendering).
- `Environment`: browser detection, the compatibility check, the speak delay.
- `Voices`: the voice tiers and the utterance settings of the three speech paths.
- `Random`: `Math.random()` as an input.
- `Phrases`: praise filtering, phrase choice, fallback file names.
- `Scheduler`: the speech queue as a value.
- `Ladders`: per-file state machines of the MP3 paths.
- `Prefetch`: which characters a prefetch call loads.
- `Audio`: the `AudioManager` class.
- `Catalog`: the character database and `getStageById`/`getCharacterById`.
- `Helpers`: formatting, rating and `shuffle`.
- `Exam`: `generateExamQuestions`.
- `Store`: the store state and its actions.

Inputs the program takes from its environment are parameters of the model:

- **Random draws.** A draw is a `Unit` (a real in [0, 1)) and a stream of
  them is `Draws = nat -> Unit`; an index is `Math.floor(r * n)`.
- **Browser events.** Media-element listeners, timers, promise settlements
  and utterance events are methods the environment calls, with the event as a
  parameter.
- **User agent, speech-synthesis presence, `encodeURIComponent`.** These are
  fixed when the manager is created.
- **The current time** is a string parameter (the ISO timestamp).
- **Saved progress** is an optional value given to the store's constructor.

JavaScript objects that the source shares and mutates through several
references are classes here:

- the manager;
- the store;
- a progress object;
- its `unlockedStages` array and its `stageRecords` object.

A shallow copy (`{...p}`) of a progress object therefore shares the list and
the table, as it does in the source.

## Model

| member | source | states |
|---|---|---|
| Random.RandomIndex | src/utils/helpers.ts:49 | `Math.floor(r * n)` is a valid position below `n` |
| Random.RandomIndexIsFloor | src/utils/helpers.ts:49 | the position is the floor of `r * n` |
| Random.RandomIndexCovers | src/utils/helpers.ts:49 | every position below `n` is the index of some draw |
| Text.Trim | src/utils/audioManager.ts:551 | the trimmed text neither starts nor ends with white space and is a contiguous slice of the input |
| Text.TrimIdempotent | src/utils/audioManager.ts:551 | trimming twice is trimming once |
| Text.Utf16Length | src/utils/audioManager.ts:552 | JavaScript's `length` counts between one and two units per character |
| Text.DecimalRoundTrip | src/utils/helpers.ts:25 | the decimal rendering of a number reads back as that number |
| Text.DecimalCanonical | src/utils/helpers.ts:25 | the rendering starts with `0` only for zero |
| Environment.CheckBrowserCompatibility | src/utils/audioManager.ts:177-230 | the browser name is the detected family; supported exactly when the speech API exists and the browser is not WeChat or Baidu; the reason is empty exactly when supported and names the missing API first |
| Environment.UnsupportedExactlyInChatBrowsers | src/utils/audioManager.ts:216-229 | with the speech API present, synthesis is refused exactly for user agents classified as WeChat or Baidu |
| Environment.FirstMatchingRowIsFirst | src/utils/audioManager.ts:181-198 | a pattern table answers the browser of the first row that matches, and "unknown" exactly when none matches |
| Environment.DetectBrowserFollowsTable | src/utils/audioManager.ts:181-198 | the if-chain classifies every user agent by the first match in the order WeChat, Baidu, QQ, UC, Miui, Chrome, Safari, Firefox |
| Environment.SpeakDelayIsMiTest | src/utils/audioManager.ts:486 | the 150 ms delay applies exactly when the user agent contains "mi" in any case, since every alternative contains it |
| Environment.MiuiBrowserGetsLongDelay | src/utils/audioManager.ts:486 | the MIUI browser always waits 150 ms |
| Environment.ChromiumGetsLongDelay | src/utils/audioManager.ts:486 | a desktop "Chromium" user agent also waits 150 ms |
| Voices.FindIndex | src/utils/audioManager.ts:405 | `find` returns the first voice that satisfies the test, and nothing exactly when none does |
| Voices.SelectByTiers | src/utils/audioManager.ts:402-429 | the tier chain picks the first voice of the best tier any voice meets, and nothing exactly when no voice meets any tier |
| Voices.CharacterVoiceNoneIffNoCandidate | src/utils/audioManager.ts:402-437 | `speakNow` leaves the default voice exactly when no voice passes any of its five tests; a chosen voice is in the list and passes one |
| Voices.LocalMandarinVoicePreferred | src/utils/audioManager.ts:405 | when a local zh-CN voice exists, the first one is chosen |
| Voices.PraiseVoiceIsChinese | src/utils/audioManager.ts:632-648 | praise speech picks a voice exactly when the list has a Chinese-language voice, and only such a voice |
| Voices.CharacterUtterance | src/utils/audioManager.ts:386-503 | a character utterance uses the tiered voice, language zh-CN and the device delay |
| Voices.PraiseUtterance | src/utils/audioManager.ts:627-680 | a praise utterance uses the praise voice, language zh-CN and the device delay |
| Voices.EncouragementUtterance | src/utils/audioManager.ts:781-830 | an encouragement utterance uses the praise voice, language zh-CN and the device delay |
| Phrases.MapFilterSpec | src/utils/audioManager.ts:550-553 | map-then-filter keeps exactly the cleaned elements that pass, and no more elements than it had |
| Phrases.MapFilterAppend | src/utils/audioManager.ts:550-553 | map-then-filter keeps the order of the data |
| Phrases.FilterPhrasesSpec | src/utils/audioManager.ts:550-553 | every surviving phrase is trimmed, one to eight units long and free of `，、。；`; every qualifying entry survives; nothing else does |
| Phrases.PraiseFallbacksQualify | src/utils/audioManager.ts:555 | the built-in praises meet the same rule |
| Phrases.EncouragementsQualify | src/utils/audioManager.ts:712 | the encouragements meet the same rule |
| Phrases.PraiseCandidates | src/utils/audioManager.ts:556 | there is always at least one candidate |
| Phrases.PraiseCandidatesSpec | src/utils/audioManager.ts:548-556 | the candidates are all usable; any that is not built in comes from the data; every usable data phrase is a candidate; the candidates are exactly the six built-in praises when no data phrase is usable, and exactly the usable data phrases otherwise |
| Phrases.PickPhrase | src/utils/audioManager.ts:557 | the chosen phrase is one of the candidates |
| Phrases.EveryCandidateReachable | src/utils/audioManager.ts:713 | every candidate can be chosen |
| Phrases.FallbackUrl | src/utils/audioManager.ts:573-577 | a fallback file is an `.mp3` path |
| Phrases.FallbackUrlsDistinct | src/utils/audioManager.ts:728-732 | the three fallback files of a kind are different files |
| Prefetch.DistinctNonEmptySpec | src/utils/audioManager.ts:325 | `Array.from(new Set(xs.filter(Boolean)))` keeps each non-empty string once and nothing else |
| Prefetch.RequestedSpec | src/utils/audioManager.ts:324-343 | one prefetch call loads each non-empty, uncached character of its input exactly once |
| Scheduler.Process | src/utils/audioManager.ts:233-243 | a task starts exactly when the flag is clear and one waits; it is the oldest; the flag is then set |
| Scheduler.ProcessSettles | src/utils/audioManager.ts:233-243 | push-then-process and release-then-process never leave a task waiting behind a clear flag |
| Scheduler.RunIsFifo | src/utils/audioManager.ts:233-243 | over any operations, started tasks followed by waiting ones are the initial ones followed by the pushed ones, in order |
| Scheduler.StartsBoundedByReleases | src/utils/audioManager.ts:233-243 | no more tasks start than releases of the flag, plus one if it was clear |
| Scheduler.ClearedStaysIdle | src/utils/audioManager.ts:897-903 | after `stopAll` nothing starts until something is pushed |
| Ladders.StepAttempt | src/utils/audioManager.ts:268-313 | a clip attempt moves on only at its first failure, finishes only on `ended` before any failure, and stays failed |
| Ladders.AttemptAdvancesAtMostOnce | src/utils/audioManager.ts:268-277 | whatever events arrive, one attempt moves to the next URL at most once, and exactly when it ends failed |
| Ladders.NoFinishAfterFailure | src/utils/audioManager.ts:288-293 | a failed attempt never releases the flag through `ended` |
| Ladders.SecondRejectionFails | src/utils/audioManager.ts:298-313 | a rejected `play()` is retried once; the second rejection fails the attempt |
| Ladders.TimerClearedBy | src/utils/audioManager.ts:279-299 | after `canplaythrough` or a resolved `play()` the timer no longer fails the attempt |
| Ladders.StepFallback | src/utils/audioManager.ts:590-617 | a fallback file hands over only at its first failure and queues only at its first `canplaythrough` |
| Ladders.FallbackAtMostOnce | src/utils/audioManager.ts:590-617 | a fallback file queues at most one playback and hands over at most once |
| Ladders.LoadedFileCanStillAdvance | src/utils/audioManager.ts:598-613 | a file that loaded and queued can still hand over on a later error |
| Audio.Clamp01 | src/utils/audioManager.ts:138 | the volume is clamped into [0, 1] and unchanged inside it |
| Audio.AudioManager.constructor | src/utils/audioManager.ts:5-19 | volume 0.8, locked, idle, empty queue and caches |
| Audio.AudioManager.UnlockAudio | src/utils/audioManager.ts:70-127 | afterwards the manager is unlocked |
| Audio.AudioManager.SetVolume | src/utils/audioManager.ts:137-141 | the volume becomes the clamped value |
| Audio.AudioManager.ProcessSpeechQueue | src/utils/audioManager.ts:233-243 | the flag and queue step as `Scheduler.Process` says |
| Audio.AudioManager.PlayCharacterSoundTTS | src/utils/audioManager.ts:344-372 | the synthesis task is pushed and processed exactly when synthesis is supported |
| Audio.AudioManager.TryPlayUrl | src/utils/audioManager.ts:252-318 | tries 0 and 1 create an attempt for the literal, then the encoded URL, and queue it; try 2 hands over to synthesis |
| Audio.AudioManager.PlayCharacterSound | src/utils/audioManager.ts:143-176 | unlocks, creates the first attempt for the literal URL, and queues and processes it |
| Audio.AudioManager.OnClipEvent | src/utils/audioManager.ts:268-315 | an event updates its attempt; a failure tries the next URL, then releases and processes; `ended` releases and processes |
| Audio.AudioManager.PrefetchCharacters | src/utils/audioManager.ts:324-341 | one load per distinct, non-empty, uncached character is started, at the encoded URL |
| Audio.AudioManager.OnPrefetchReady | src/utils/audioManager.ts:334-336 | the loaded character is cached |
| Audio.AudioManager.OnPrefetchError | src/utils/audioManager.ts:337-339 | the failed character is dropped from the cache |
| Audio.AudioManager.TryFallback | src/utils/audioManager.ts:579-596 | files 0 to 2 of a ladder get a new element; past the third nothing happens |
| Audio.AudioManager.QueueSpeech | src/utils/audioManager.ts:562-566 | appending a synthesis task and processing is one push-and-process step of the queue |
| Audio.AudioManager.PlayPraise | src/utils/audioManager.ts:537-568 | unlocks; when unsupported, starts the praise ladder and leaves the queue; when supported, queues a candidate praise |
| Audio.AudioManager.PlayEncouragement | src/utils/audioManager.ts:702-724 | the same for encouragements |
| Audio.AudioManager.OnFallbackEvent | src/utils/audioManager.ts:753-771 | a fallback listener updates its file, queues playback, hands over to the next file and releases the flag as its step says |
| Audio.AudioManager.OnUtteranceDone | src/utils/audioManager.ts:470-475 | the end or error of an utterance clears the flag |
| Audio.AudioManager.OnSpeakThrew | src/utils/audioManager.ts:499-502 | a throwing `speak` leaves the flag set on the character path; on the praise and encouragement paths it releases and processes |
| Audio.AudioManager.UtteranceFor | src/utils/audioManager.ts:375-536 | synthesis tasks get an utterance of their text; characters at full volume, praise and encouragement at the manager's volume |
| Audio.AudioManager.PlaySound | src/utils/audioManager.ts:852-854 | playing a tone unlocks the manager |
| Audio.AudioManager.StopAll | src/utils/audioManager.ts:897-903 | throws exactly without the speech API, leaving the queue; otherwise empties it and clears the flag |
| Audio.OverlappingClips | src/utils/audioManager.ts:279 | the 1200 ms timer of a clip still waiting clears the flag held by a playing clip, so two clips play at once |
| Audio.RepeatedPrefetch | src/utils/audioManager.ts:326 | prefetching a character twice before it loads starts two loads |
| Catalog.FindStage | src/utils/helpers.ts:6 | `find` returns the first stage with the id, and nothing exactly when none has it |
| Catalog.FindCharacter | src/utils/helpers.ts:16 | `find` returns the first character with the id, and nothing exactly when none has it |
| Catalog.GetStageByIdIsFirstMatch | src/utils/helpers.ts:4-10 | `getStageById` finds the first stage with the id in level-then-stage order, and nothing exactly when no stage has it |
| Catalog.GetCharacterByIdIsFirstMatch | src/utils/helpers.ts:13-21 | `getCharacterById` finds the first character with the id in level, stage, character order, and nothing exactly when none has it |
| Catalog.StageCharactersInPool | src/store/useAppStore.ts:57-62 | the characters of any stage are in the distractor pool |
| Helpers.FormatScoreRoundTrip | src/utils/helpers.ts:24-26 | the score label reads back as the score, so different scores get different labels |
| Helpers.TimePartsSpec | src/utils/helpers.ts:29-33 | for a duration, minutes and seconds add up, with seconds below 60; for a negative non-multiple of 60 they miss by a minute |
| Helpers.FormatTimeOfDuration | src/utils/helpers.ts:29-33 | a duration's label spells its whole minutes and remaining seconds |
| Helpers.ScoreRating | src/utils/helpers.ts:36-43 | each of the six verdicts corresponds to exactly its score band |
| Helpers.RatingTextsDistinct | src/utils/helpers.ts:36-43 | different verdicts have different texts |
| Helpers.RatingMonotone | src/utils/helpers.ts:36-43 | up to 100, a higher score never gets a worse verdict |
| Helpers.RatingAboveFullScore | src/utils/helpers.ts:36-43 | above 100 the verdict drops back to "great" |
| Helpers.SwapExchanges | src/utils/helpers.ts:50 | the two positions are exchanged and the others kept |
| Helpers.SwapPermutes | src/utils/helpers.ts:50 | exchanging keeps the same elements |
| Helpers.SwapIndex | src/utils/helpers.ts:49 | the partner of position `i` is at most `i` |
| Helpers.ShuffleDownSpec | src/utils/helpers.ts:48-51 | the remaining steps permute the elements and keep the positions above the current one |
| Helpers.ShuffledSpec | src/utils/helpers.ts:46-53 | the shuffle is a permutation and its last element is the one the first draw picks |
| Helpers.AnyElementCanComeLast | src/utils/helpers.ts:46-53 | any element can end up last |
| Helpers.Shuffle | src/utils/helpers.ts:46-53 | returns a new array holding the shuffle of the input's contents |
| Exam.CollectCharacters | src/store/useAppStore.ts:57-62 | the pool is every character in level, stage and character order |
| Exam.PickDistractors | src/store/useAppStore.ts:67-76 | the drawing loop's result is the drawn distractors |
| Exam.DrawLoopSpec | src/store/useAppStore.ts:70-76 | the loop keeps its picks from the pool with distinct ids outside the used set, and ends with three |
| Exam.DrawDistractorsSpec | src/store/useAppStore.ts:67-76 | drawn distractors are three pool characters with distinct ids, none the correct one's |
| Exam.DistractorsReachable | src/store/useAppStore.ts:70-76 | any three pool characters with distinct ids other than the correct one's can be drawn |
| Exam.BuildQuestion | src/store/useAppStore.ts:65-86 | builds the question the draws determine |
| Exam.BuildQuestions | src/store/useAppStore.ts:65-86 | the questions of the `map` over the stage's characters, in order, or the first failure |
| Exam.GenerateExamQuestions | src/store/useAppStore.ts:41-89 | the generated exam is the one the draws determine |
| Exam.CorrectOptionUnique | src/store/useAppStore.ts:78-85 | the correct character appears among the options exactly once by id |
| Exam.ShuffleDownKeepsDistinctIds | src/store/useAppStore.ts:79 | reordering the options keeps their ids distinct |
| Exam.QuestionForSpec | src/store/useAppStore.ts:65-86 | a question exists exactly when the draws find distractors; it is numbered, has the correct character, four pool options with distinct ids including the correct one, and is unanswered |
| Exam.QuestionsUpToSucceeds | src/store/useAppStore.ts:65-86 | the questions exist exactly when every question's draws succeed |
| Exam.QuestionsUpToError | src/store/useAppStore.ts:70-76 | with a non-empty pool the only failure is the draw budget |
| Exam.QuestionsUpToWellFormed | src/store/useAppStore.ts:65-86 | question `i` is a well-formed question on the stage's `i`-th character |
| Exam.ExamForSpec | src/store/useAppStore.ts:41-89 | "stage not found" exactly when no stage has the id; otherwise one well-formed question per character, in order, exactly when all draws succeed, and the only other outcome is the draw budget |
| Store.NewRecord | src/store/useAppStore.ts:175-181 | best score is the maximum of the prior best (or 0) and the score; one more attempt; passed if ever passed or now at least 60; time is now |
| Store.RecordHistory | src/store/useAppStore.ts:173-183 | after a series of exams the record holds the best score, the number of exams, and whether any passed |
| Store.Unlock | src/store/useAppStore.ts:186-191 | the list gains the next stage when it exists, keeps its order, and gains nothing else |
| Store.UnlockKeepsDistinct | src/store/useAppStore.ts:187-188 | unlocking never lists a stage twice |
| Store.UnlockIdempotent | src/store/useAppStore.ts:208-209 | unlocking the same stage twice changes nothing the second time |
| Store.Answer | src/store/useAppStore.ts:132-137 | the question records the answer and whether it is right, and keeps everything else |
| Store.ScoreAfter | src/store/useAppStore.ts:140 | ten points more exactly when the answer is right |
| Store.AnswerKeepsScore | src/store/useAppStore.ts:127-165 | answering in order keeps the score at ten points per correct answer so far |
| Store.ScoreBounds | src/store/useAppStore.ts:140 | a score is between 0 and ten points per question |
| Store.Progress.constructor | src/store/useAppStore.ts:6-16 | a new progress object with its own list and table holding the value |
| Store.Progress.Copy | src/store/useAppStore.ts:242 | a shallow copy shares the list and the table |
| Store.AppStore.constructor | src/store/useAppStore.ts:19-29 | without saved progress the player's progress is the default object itself; with it, a new object with the saved values |
| Store.AppStore.StartExam | src/store/useAppStore.ts:113-125 | a generated exam starts at question 1 with no points on the exam page; a failed generation changes nothing |
| Store.AppStore.AnswerQuestion | src/store/useAppStore.ts:127-165 | the question records the answer at once; the last answer sets the score and defers completion; others defer the move to the next question with the new score; no exam or past its end does nothing |
| Store.AppStore.FireDeferred | src/store/useAppStore.ts:151-163 | a deferred move shows the exam, index and score it captured and changes no other field nor the progress; a deferred completion keeps the exam, index, score and stage and has exactly `completeExam`'s effect (`Completed`) |
| Store.AppStore.CompleteExam | src/store/useAppStore.ts:167-201 | without a stage nothing happens; otherwise the record is updated, a pass unlocks and selects the next existing stage, the page shows the result, and the copy shares the list and table |
| Store.AppStore.UnlockNextStage | src/store/useAppStore.ts:203-214 | an existing locked next stage is appended and made current, in the shared list; otherwise nothing changes |
| Store.AppStore.ResetProgress | src/store/useAppStore.ts:236-250 | after confirmation the progress shares the default object's list and table and holds whatever it holds; the exam state is cleared |
| Store.AppStore.ResetProgressFresh | src/store/useAppStore.ts:236-250 | after confirmation the progress is a new object holding the default values; the exam state is cleared |
| Store.ResetAfterUnlockKeepsStage | src/store/useAppStore.ts:28 | without saved progress, unlocking stage 2 and resetting leaves stages 1 and 2 unlocked and stage 2 current |
| Store.SecondResetKeepsStage | src/store/useAppStore.ts:242 | with saved progress, reset, unlock and reset again also leaves stage 2 unlocked |
| Store.ResetAfterUnlockRestoresDefaults | src/store/useAppStore.ts:236-250 | with the corrected reset, the same steps leave only stage 1, current |

## Left out

- The Web Audio context, its resume, and the silent oscillator of `unlockAudio`. The model keeps only the `isAudioUnlocked` flag.
- The silent utterance and the `speechSynthesis.cancel()` calls of `unlockAudio`, `speakNow`, `speakPraiseNow` and `speakEncouragementNow`. They act on the browser's speech engine, which is not part of the model.
- The WeChat JS bridge hook (`setupWeChatBridge`, `unlockAudioForWeChat`), which only resumes the audio context.
- Howler sounds and background music (`pauseBackgroundMusic`, `resumeBackgroundMusic`): the `sounds` map and `backgroundMusic` are never filled in the source. The volume update of those sounds and `stopAll`'s stopping of them are therefore omitted.
- The oscillator tones of `playSound` (frequencies, gain ramps). Only its unlock is modelled.
- Audio.AudioManager.SetVolume: `Math.max`/`Math.min` of NaN is not modelled, because volumes are reals.
- Timers are not a clock. Each timer callback is an event method the environment may call at any time, in any order: the 1200 ms clip timeout, the 150 ms retry, the 100 ms re-processing after an utterance, the 2 s wait for voices and the 1.5 s answer delay.
- `voiceschanged`, `pause` and `resume` of the speech engine, and the 2 s voice wait. `UtteranceFor` takes the voice list at the moment of speaking as a parameter.
- Console logging and `alert`.
- Prefetch: the cached elements are never read by playback in the source. The model keeps the cache as a map from character to load, without the elements themselves.
- Exam.GenerateExamQuestions: randomness is one stream of draws per question for the distractors and one for the option order. This stands in for the single global `Math.random()` sequence.
- Exam.GenerateExamQuestions: the options order comes from `sort` with a random comparator, whose result depends on the engine's sort algorithm. It is modelled as the Fisher-Yates rearrangement `Helpers.Shuffled` driven by the order draws. The model therefore claims only that the options are a permutation of the correct character and the distractors, not a particular distribution.
- Exam.GenerateExamQuestions: the source's distractor loop does not terminate when the pool has fewer than four distinct ids. The model bounds it by `limit` draws and reports `DrawBudgetExhausted`.
- Exam.GenerateExamQuestions: reading `.id` of `undefined` when the pool is empty is the `EmptyPool` error. The draw budget does not model the loop's non-termination.
- Helpers.FormatScore: only integer scores are modelled. A fractional score such as `92.5分` and the exponent notation JavaScript uses from 10^21 on are not. The store's scores are multiples of ten. Helpers.FormatScoreRoundTrip is therefore a statement about integer scores, and `formatTime`'s numbers are rendered the same way.
- Store.AppStore.StartExam: the `if (!charactersData) return` guard is omitted. The data is a constant of the store.
- Store.AppStore.StartExam: a missing stage makes the source throw. The model returns the failure and changes nothing.
- Store.AppStore.constructor: saved progress is taken as a complete progress value with its own list and table. A saved object missing keys would share the default's arrays through the spread, and that case is not modelled.
- `saveProgressToStorage`, `localStorage` and the `window.confirm` dialog are not modelled. The dialog's answer is the `confirmed` parameter of the reset.
- `setCurrentPage`, `setCurrentStageId`, `updateUserProgress`, `saveProgress` and `loadProgress` are not part of this model. Neither are `debounce`, `throttle` and the other helpers after `shuffle`.
- Zustand's `set` and subscription are not modelled. Store fields are assigned directly, and array spreads (`[...currentExam]`) that only force a re-render are not modelled.

## Findings

| source | as written | input that shows it | evidently intended | confidence | as-written member | corrected member |
|---|---|---|---|---|---|---|
| src/store/useAppStore.ts:236-250 | `resetProgress` installs `{...defaultProgress}`, a shallow copy that shares `defaultProgress.unlockedStages` and `stageRecords`. With no saved progress the store starts with `defaultProgress` itself (line 28), so unlocks and records are pushed into the default object. | start without saved progress, `unlockNextStage(1)`, then confirm the reset: stages `[1, 2]` stay unlocked and stage 2 stays current | the reset restores stage 1 as the only unlocked and current stage, with no records | not executed | Store.ResetAfterUnlockKeepsStage | Store.ResetAfterUnlockRestoresDefaults |
