# typing_master in Dafny

A model of the engine behind the typing-speed trainer *typing_master*, with proofs about that model. The model covers the following:

- **Metric helpers** (`TypingUtils`):
  - words per minute, counting five characters as one word;
  - accuracy as a rounded percentage;
  - normalisation of a keystroke log into a replay record whose first timestamp is 0.
- **Live statistics tick** (`TypingStats`): what the half-second interval publishes from a snapshot of the session and the current time, and when that interval runs.
- **Countdown of a timed test** (`TypingTimer`):
  - the remaining-seconds formula;
  - a `Countdown` class whose `Tick(now)` publishes the remaining time and fires the completion callback once.
- **Paragraph generator** (`TextGenerator`):
  - the word pools, one per difficulty;
  - the sentence-building loops of `generateParagraph`, as imperative methods, and `generateParagraphs`;
  - specification functions that the methods are proved against. One works over strings, as the loops do. The other is a structured view in which each word records its table word, its comma and its end mark.
- **Typing session** (`TypingTest`):
  - the session's state record;
  - its store of replay records, keyed by `"typing-progress-"` plus an encoding of the paragraph's first 20 characters;
  - the handlers `generateNewText`, `changeDifficulty`, `handleInputChange`, `retryText` and `toggleSound`, plus the statistics tick, as methods of a `TypingSession` class. Each method is proved equal to a specification function on the record, and the lemmas about those functions carry the properties.

Inputs from the environment are parameters:

- **The clock:** the current time is `now`, in milliseconds.
- **`Math.random()`:** a stream `random: nat -> real`. Draws are consumed in the order the source takes them:
  1. the sentence length;
  2. for each word, the word draw, then the comma draw, which is taken only when `2 < i < sentenceLength - 1`;
  3. the end mark.
- **`btoa`:** an opaque function `encode`.
- **`localStorage`:** a `map<string, seq<TypingProgress>>`, through which the JSON round trip is the identity.

JavaScript's `Math.round` becomes `Floor(x + 0.5)` over reals. The truthiness of a `number | null` start time (`0` counts as unset) is the predicate `TypingTypes.IsSet`.

Three behaviours of the code that a reader might not expect are modelled as written:

- **Zero-time guard.** `calculateWPM` guards only a time of exactly zero. A negative time is not mapped to 0 and gives a negative (or zero) rate. `TypingUtils.WpmNegativeTimeNotClamped` states this.
- **Input after completion.** `handleInputChange` does not reject input once a test is complete; only the input field is disabled by the UI. `TypingTest.InputAfterCompletionAccepted` shows a completed attempt becoming incomplete again.
- **Timer completion.** Reaching zero on the countdown does not complete the session in this revision, because the timer is not wired into `useTypingTest`. The countdown is therefore modelled on its own.

## Model

| member | source | states |
|---|---|---|
| TypingUtils.Round | src/utils/typingUtils.ts:17 | `Math.round(x)` is the integer within half a unit of x (at or below x + 0.5, above x - 0.5) |
| TypingUtils.CalculateWPM | src/utils/typingUtils.ts:9-18 | 0 when the time is exactly 0; otherwise the integer nearest to (characters / 5) / (seconds / 60) |
| TypingUtils.WpmNothingTyped | src/utils/typingUtils.ts:11-17 | no characters typed gives 0 wpm, whatever the time |
| TypingUtils.WpmOneWordPerMinute | src/utils/typingUtils.ts:11-17 | 5 characters in 60 seconds is 1 wpm |
| TypingUtils.WpmNegativeTimeNotClamped | src/utils/typingUtils.ts:12-15 | the guard covers only a zero time: 5 characters in -60 seconds gives -1 |
| TypingUtils.WpmMonotoneInCharacters | src/utils/typingUtils.ts:11-17 | for a fixed positive time, more characters never give a lower rate |
| TypingUtils.CalculateAccuracy | src/utils/typingUtils.ts:25-28 | 100 when nothing was typed; otherwise the nearest integer to 100·correct/total, which lies in [0, 100] when 0 ≤ correct ≤ total |
| TypingUtils.AccuracyAllCorrect | src/utils/typingUtils.ts:27 | all typed characters correct gives 100 |
| TypingUtils.AccuracyNoneCorrect | src/utils/typingUtils.ts:27 | no correct character out of a positive total gives 0 |
| TypingUtils.ProcessTypingProgress | src/utils/typingUtils.ts:33-44 | same length as the log; each entry keeps its position and has its timestamp minus the first timestamp; the first entry is at 0 |
| TypingUtils.NormalizeEmpty | src/utils/typingUtils.ts:36 | an empty log gives an empty record |
| TypingUtils.NormalizeExample | src/utils/typingUtils.ts:38-43 | keystrokes at 100 and 250 ms become offsets 0 and 150 |
| TypingUtils.NormalizedOrdered | src/utils/typingUtils.ts:38-43 | a log in time order gives non-negative, non-decreasing offsets |
| TypingUtils.NormalizeShiftInvariant | src/utils/typingUtils.ts:38-43 | shifting all timestamps by the same amount leaves the record unchanged |
| TypingStats.CorrectCharsCountsMatches | src/hooks/useTypingStats.ts:32-34 | the correct-character count is the number of positions i < \|input\| with i < \|text\| and input[i] = text[i] |
| TypingStats.CorrectCharsBound | src/hooks/useTypingStats.ts:32-34 | at most one correct character per typed character |
| TypingStats.CorrectCharsAllIffPrefix | src/hooks/useTypingStats.ts:32-34 | every typed character is correct if and only if the input is a prefix of the text |
| TypingStats.CorrectCharsWithinText | src/hooks/useTypingStats.ts:32-34 | characters typed past the end of the text never count |
| TypingStats.CorrectChars | src/hooks/useTypingStats.ts:32-34 | the number of typed characters that equal the text's character at the same position (counted from the end of the input; characterised by the lemmas above) |
| TypingStats.ElapsedSeconds | src/hooks/useTypingStats.ts:29 | seconds since the start time: (now − startTime) / 1000 |
| TypingStats.Progress | src/hooks/useTypingStats.ts:38 | no number (NaN/Infinity) exactly for an empty text; in [0, 100] for a cursor inside or at the end of the text; below 100 before the end |
| TypingStats.TickAccuracyInRange | src/hooks/useTypingStats.ts:32-37 | the published accuracy is always a percentage in [0, 100] |
| TypingStats.TickAccuracyPerfectOnPrefix | src/hooks/useTypingStats.ts:32-37 | the published accuracy is 100 when the input is a prefix of the text |
| TypingStats.TickAccuracyNothingCorrect | src/hooks/useTypingStats.ts:32-37 | the published accuracy is 0 when no typed character matches |
| TypingStats.TickProgressInRange | src/hooks/useTypingStats.ts:38 | while the cursor is inside the text, the published progress is a number in [0, 100) |
| TypingStats.TickStats | src/hooks/useTypingStats.ts:28-40 | the published triple: wpm of the cursor position over the elapsed seconds, accuracy of the correct characters over the input length, and progress of the cursor over the text length |
| TypingStats.StatsActive | src/hooks/useTypingStats.ts:26 | the tick runs exactly when the start time is truthy (set and nonzero) and the test is not complete |
| TypingTimer.Remaining | src/hooks/useTypingTimer.ts:27-28 | the remaining whole seconds are never negative |
| TypingTimer.RemainingAtMostLimit | src/hooks/useTypingTimer.ts:27-28 | once the clock runs, no more than the limit remains |
| TypingTimer.RemainingFirstSecond | src/hooks/useTypingTimer.ts:27-28 | during the first 1000 ms the whole limit remains |
| TypingTimer.RemainingNonIncreasing | src/hooks/useTypingTimer.ts:27-28 | the remaining time never goes up as time passes |
| TypingTimer.RemainingZeroIff | src/hooks/useTypingTimer.ts:27-28 | the remaining time is 0 exactly when the limit, in milliseconds, has elapsed |
| TypingTimer.TimerActive | src/hooks/useTypingTimer.ts:24 | the countdown runs exactly when the limit is positive, the start time is truthy and the test is not complete |
| TypingTimer.Countdown.constructor | src/hooks/useTypingTimer.ts:20 | a fresh countdown is not scheduled and has not completed |
| TypingTimer.Countdown.Arm | src/hooks/useTypingTimer.ts:23-46 | re-running the effect clears the old interval and schedules one exactly when timeLimit > 0, the start time is set and the test is not complete |
| TypingTimer.Countdown.Tick | src/hooks/useTypingTimer.ts:26-38 | a scheduled tick publishes max(0, limit − floor(elapsed / 1000)) and, when that is 0, unschedules itself and fires completion once; an unscheduled tick does nothing |
| TypingTimer.Countdown.ClearTimer | src/hooks/useTypingTimer.ts:48-55 | after clearTimer no interval is scheduled |
| TextGenerator.WordPool | src/utils/textGenerator.ts:38-50 | easy draws from the 40 simple words, medium from the 80 simple and medium words, hard from all 112 words |
| TextGenerator.Pick | src/utils/textGenerator.ts:55 | `Math.floor(Math.random() * n)` is an index below n |
| TextGenerator.PickBounds | src/utils/textGenerator.ts:60 | for a draw in [0, 1), the index is the integer part of draw·n |
| TextGenerator.ToUpper | src/utils/textGenerator.ts:64 | `toUpperCase` on one character: a lower-case ASCII letter becomes its upper-case letter, any other character is kept |
| TextGenerator.Capitalize | src/utils/textGenerator.ts:64 | the word with its first character upper-cased and the rest kept: same length, same tail |
| TextGenerator.CapitalizePlain | src/utils/textGenerator.ts:63-64 | capitalising a word of letters upper-cases its first letter and keeps it a word of letters |
| TextGenerator.FillWords | src/utils/textGenerator.ts:59-74 | the inner loop over strings: from a partial sentence and the next draw index, the sentence before its end mark and the next draw index (its length and shape are stated by FillWordsBounds and, through FillRenders, FillSentenceShape) |
| TextGenerator.FillWordsBounds | src/utils/textGenerator.ts:59 | the inner loop stops after sentenceLength words, or sooner when the paragraph is full |
| TextGenerator.FillSentenceShape | src/utils/textGenerator.ts:59-74 | the inner loop produces a capitalised pool word followed by pool words, with commas only after words 2 to sentenceLength − 3, and it stops at min(sentenceLength, room) words |
| TextGenerator.MarkComma | src/utils/textGenerator.ts:68-69 | `sentence[sentence.length - 1] = lastWord + ","` on the structured view: the last word gains its comma (its rendering gains ",", RenderMarkComma) |
| TextGenerator.MarkEnd | src/utils/textGenerator.ts:77-78 | `sentence[sentence.length - 1] += punctuationMark` on the structured view: the last word gains the end mark (its rendering gains the mark, RenderMarkEnd) |
| TextGenerator.FillSentence | src/utils/textGenerator.ts:59-74 | the inner loop on the structured view, consuming the same draws as FillWords; its result renders as FillWords's (FillRenders) and has the shape FillSentenceShape states |
| TextGenerator.SentenceAt | src/utils/textGenerator.ts:55-78 | one turn of the outer loop on the structured view: the length draw, the inner loop, the end mark; the finished sentence and the next draw index (shape by SentenceAtShape) |
| TextGenerator.Sentences | src/utils/textGenerator.ts:53-82 | the outer loop on the structured view: the sentences still made when a number of words is missing (count and shape by SentencesShape) |
| TextGenerator.Paragraph | src/utils/textGenerator.ts:34-82 | the sentences of a paragraph on the structured view, over the difficulty's pool from draw 0 |
| TextGenerator.WordsFrom | src/utils/textGenerator.ts:53-82 | the outer loop over strings: from the words produced so far and the next draw index, the final word list (its count and shape are stated by SentencesRender and SentencesShape) |
| TextGenerator.SentenceAtShape | src/utils/textGenerator.ts:53-81 | each sentence has 1 to 12 words, its end mark on its last word, and at least 5 words unless it completes the paragraph |
| TextGenerator.SentencesShape | src/utils/textGenerator.ts:53-82 | the outer loop stops at exactly the requested number of words (none when it is ≤ 0), and every sentence but the last has at least 5 words |
| TextGenerator.SentencesRender | src/utils/textGenerator.ts:53-82 | the string-level loops produce exactly the rendering of the structured sentences |
| TextGenerator.ParagraphWords | src/utils/textGenerator.ts:34-82 | the paragraph's `result` before joining: the outer loop over strings from no words and draw 0 over the difficulty's pool |
| TextGenerator.ParagraphWordsRender | src/utils/textGenerator.ts:34-82 | the paragraph's words are exactly the rendered words of its structured sentences, in order |
| TextGenerator.ParagraphWellFormed | src/utils/textGenerator.ts:53-84 | a paragraph has exactly max(wordCount, 0) words, all in well-formed sentences |
| TextGenerator.ParagraphEmpty | src/utils/textGenerator.ts:53-84 | a word count ≤ 0 gives the empty string |
| TextGenerator.ParagraphStartsCapitalized | src/utils/textGenerator.ts:63-64 | a non-empty paragraph starts with a capitalised pool word |
| TextGenerator.ParagraphEndsWithMark | src/utils/textGenerator.ts:77-78 | the last word of a non-empty paragraph ends with one of the marks `.`, `,`, `!`, `?` |
| TextGenerator.SplitJoin | src/utils/textGenerator.ts:84 | space-free words survive `join(" ")` followed by a split at spaces |
| TextGenerator.ParagraphSplit | src/utils/textGenerator.ts:84 | splitting a non-empty paragraph at its spaces gives back its words, exactly wordCount of them |
| TextGenerator.Join | src/utils/textGenerator.ts:84 | `words.join(" ")`: the words separated by single spaces, "" for no words (inverted by Split, see SplitJoin) |
| TextGenerator.ParagraphText | src/utils/textGenerator.ts:30-85 | the paragraph for a difficulty, word count and draw stream: the outer loop from no words and draw 0 over the difficulty's pool, joined (its properties are the Paragraph* lemmas) |
| TextGenerator.Collect | src/utils/textGenerator.ts:97-99 | the list of f(0) … f(count − 1), built by appending: it has exactly count elements |
| TextGenerator.CollectAt | src/utils/textGenerator.ts:97-99 | element i of the collected list is the i-th paragraph |
| TextGenerator.BuildSentence | src/utils/textGenerator.ts:56-74 | the inner for-loop with its in-place comma edits computes the inner-loop specification |
| TextGenerator.GenerateWords | src/utils/textGenerator.ts:53-82 | the outer while-loop with its in-place end mark computes the outer-loop specification |
| TextGenerator.GenerateParagraph | src/utils/textGenerator.ts:30-85 | `generateParagraph(difficulty, wordCount)` returns the joined specification paragraph for its draws |
| TextGenerator.GenerateParagraphs | src/utils/textGenerator.ts:90-102 | `generateParagraphs` returns exactly max(count, 0) paragraphs, paragraph i being `generateParagraph` on its own draws |
| TypingTest.Prefix | src/hooks/useTypingTest.tsx:64 | `text.substring(0, 20)` is a prefix of the text of length min(\|text\|, 20) |
| TypingTest.ParagraphId | src/hooks/useTypingTest.tsx:64 | `btoa(text.substring(0, 20))`: the encoding of the 20-character prefix |
| TypingTest.StoreKey | src/hooks/useTypingTest.tsx:67 | the storage key `typing-progress-` followed by the paragraph id, used by getItem (line 67) and both setItem calls (lines 185, 210) |
| TypingTest.Lookup | src/hooks/useTypingTest.tsx:67-82 | the lookup finds a record exactly when the key is stored, and then it is the stored record |
| TypingTest.Cleared | src/hooks/useTypingTest.tsx:72-81 | the reset written out in generateNewText and both branches of retryText (lines 217-225, 232-240): input, completion, start and end times, metrics, cursor and log reset, every other field kept |
| TypingTest.Initial | src/hooks/useTypingTest.tsx:41-56 | the first record: empty text and input, no times, zero metrics, the given difficulty and sound setting, no replay, empty id |
| TypingTest.WithNewText | src/hooks/useTypingTest.tsx:62-84 | the record after generateNewText produced a text: the attempt cleared, text, difficulty and id set, replay looked up under the id's key (stated by NewTextResets) |
| TypingTest.InitialConsistent | src/hooks/useTypingTest.tsx:41-56 | the initial record satisfies the session invariant |
| TypingTest.NewTextResets | src/hooks/useTypingTest.tsx:62-84 | a new paragraph clears input, cursor, log, start and end times, metrics and completion, sets the difficulty, keeps the sound setting, and loads the record stored under the paragraph's key, or none |
| TypingTest.NewTextDependsOnPrefix | src/hooks/useTypingTest.tsx:64-67 | the id and the loaded record depend only on the first 20 characters of the paragraph |
| TypingTest.NewTextConsistent | src/hooks/useTypingTest.tsx:69-84 | a new paragraph gives a record that satisfies the session invariant |
| TypingTest.TimingsAfterInput | src/hooks/useTypingTest.tsx:151-159 | the log with one entry (last character, now, \|input\| − 1) appended when the input grew, otherwise the log unchanged |
| TypingTest.AfterInput | src/hooks/useTypingTest.tsx:141-179 | the record after handleInputChange: start time set if falsy, input, cursor, completion, end time and log updated (stated by InputStartTime, InputLogGrowsIffLonger and InputFields) |
| TypingTest.StoreAfterInput | src/hooks/useTypingTest.tsx:181-188 | the store after handleInputChange: the normalised log under the paragraph's key when complete (stated by InputStore) |
| TypingTest.KeySound | src/hooks/useTypingTest.tsx:161-165 | the key sound played, if any: on growth with sound enabled, whether the new character matches the text (stated by KeySoundIff) |
| TypingTest.InputStartTime | src/hooks/useTypingTest.tsx:141-149 | the first keystroke sets the start time to now; a set start time is never changed |
| TypingTest.InputLogGrowsIffLonger | src/hooks/useTypingTest.tsx:152-159 | the log gains one entry, (last character, now, \|input\| − 1), exactly when the input grew, and otherwise is unchanged |
| TypingTest.InputFields | src/hooks/useTypingTest.tsx:168-179 | input and cursor follow the new value; completion means reaching the text's length; the end time is stamped on completion; the paragraph, settings, metrics and replay are kept |
| TypingTest.InputStore | src/hooks/useTypingTest.tsx:181-188 | on completion only the paragraph's entry changes, to the normalised log; before completion the store is unchanged |
| TypingTest.KeySoundIff | src/hooks/useTypingTest.tsx:161-165 | a key sound plays exactly on growth with sound enabled, and is "correct" exactly when the new character equals the text's character at its position |
| TypingTest.InputConsistent | src/hooks/useTypingTest.tsx:139-189 | input handling keeps the session invariant |
| TypingTest.CompletionReplayedOnSamePrefix | src/hooks/useTypingTest.tsx:182-188 | after a completed attempt, a new paragraph with the same first 20 characters loads exactly that attempt's normalised log |
| TypingTest.ClearedTypedInOrder | src/hooks/useTypingTest.tsx:69-84 | a reset attempt trivially has its log in step with its input |
| TypingTest.TypeForwardKeepsOrder | src/hooks/useTypingTest.tsx:152-159 | typing one more character no earlier than the last keystroke keeps one entry per character, at its position, with timestamps in order |
| TypingTest.ReplayOfOrderedAttempt | src/hooks/useTypingTest.tsx:183 | the replay of such an attempt has one entry per character at its position, with non-negative, non-decreasing offsets |
| TypingTest.ScenarioCat | src/hooks/useTypingTest.tsx:139-189 | typing "cat" at 0, 100 and 250 ms completes at 250 ms and stores offsets 0, 100 and 250; the start time of 0 counts as unset, so the clock restarts at 100 ms |
| TypingTest.InputAfterCompletionAccepted | src/hooks/useTypingTest.tsx:169-179 | input after completion is accepted and can make the attempt incomplete again |
| TypingTest.RetrySaves | src/hooks/useTypingTest.tsx:207 | a retry saves exactly when the log is non-empty and the start time is truthy |
| TypingTest.AfterRetry | src/hooks/useTypingTest.tsx:205-242 | the record after retryText: the attempt cleared, and the normalised log loaded as the replay when the retry saves (stated by RetryResets) |
| TypingTest.StoreAfterRetry | src/hooks/useTypingTest.tsx:205-242 | the store after retryText: the normalised log under the paragraph's key when the retry saves, otherwise unchanged (stated by RetryResets) |
| TypingTest.RetryResets | src/hooks/useTypingTest.tsx:205-242 | a retry keeps the text, id, difficulty and sound setting and clears the attempt; with a non-empty log and a set start time it stores the normalised log and loads it as the replay; otherwise store and replay are unchanged |
| TypingTest.ScenarioRetryAfterTwo | src/hooks/useTypingTest.tsx:207-227 | retrying after typing 2 of 5 characters stores and loads the two-entry replay and keeps the paragraph |
| TypingTest.RetryTwice | src/hooks/useTypingTest.tsx:205-242 | a second retry right after a retry changes neither the record nor the store |
| TypingTest.RetryConsistent | src/hooks/useTypingTest.tsx:205-242 | a retry keeps the session invariant |
| TypingTest.AfterToggleSound | src/hooks/useTypingTest.tsx:197-202 | the record with the sound setting negated (stated by ToggleSoundFlips) |
| TypingTest.ToggleSoundFlips | src/hooks/useTypingTest.tsx:197-202 | toggling flips the sound setting, changes nothing else, is its own inverse, and keeps the invariant |
| TypingTest.StatsTickInRange | src/hooks/useTypingTest.tsx:105-126 | while the tick is active on a consistent record, the published accuracy is in [0, 100] and the progress in [0, 100) |
| TypingTest.StatsTickConsistent | src/hooks/useTypingTest.tsx:105-126 | the statistics tick keeps the session invariant |
| TypingTest.AfterStatsTick | src/hooks/useTypingTest.tsx:105-126 | the record after one firing of the stats interval: the metrics replaced by the tick's while the tick is active, otherwise unchanged (stated by StatsTickInRange) |
| TypingTest.TypingSession.constructor | src/hooks/useTypingTest.tsx:37-56 | the session starts from the initial record with the given difficulty and sound setting |
| TypingTest.TypingSession.GenerateNewText | src/hooks/useTypingTest.tsx:62-90 | the record becomes the new-paragraph record for the generated paragraph; the store is unchanged |
| TypingTest.TypingSession.ChangeDifficulty | src/hooks/useTypingTest.tsx:192-194 | a new paragraph at the new difficulty |
| TypingTest.ChangeDifficultyAsWritten | src/hooks/useTypingTest.tsx:62-102 | changeDifficulty followed by the renders it causes: the mount effect re-runs generateNewText(initialDifficulty) after every render that changed the difficulty |
| TypingTest.ChangeDifficultySnapsBack | src/hooks/useTypingTest.tsx:90-102 | as written, the difficulty settles back at the initial one unless the requested one was already current |
| TypingTest.HardButtonStaysMedium | src/hooks/useTypingTest.tsx:192-194 | the page's default hook (Medium) with its Hard button ends at Medium |
| TypingTest.ChangeDifficultySticks | src/hooks/useTypingTest.tsx:192-194 | the intended changeDifficulty: one new paragraph at the requested difficulty, the attempt cleared, the sound setting kept |
| TypingTest.TypingSession.HandleInputChange | src/hooks/useTypingTest.tsx:139-189 | the record, the store and the key sound become those of the input specification |
| TypingTest.TypingSession.ToggleSound | src/hooks/useTypingTest.tsx:197-202 | the record becomes the toggled record; the store is unchanged |
| TypingTest.TypingSession.RetryText | src/hooks/useTypingTest.tsx:205-248 | the record and the store become those of the retry specification |
| TypingTest.TypingSession.StatsTick | src/hooks/useTypingTest.tsx:105-126 | when the start time is set and the test is not complete, the metrics are replaced by the tick's; otherwise nothing changes |

## Left out

- Scheduling:
  - not modelled: `setInterval`, `clearInterval`, effect re-arming, `useRef`, React batching and stale closures;
  - each firing of an interval is an explicit call (`StatsTick`, `Countdown.Tick`);
  - the two `setState` calls of `handleInputChange` form one atomic step;
  - the stats interval's ref handling (`clearStatsInterval`, the `else if` clear at src/hooks/useTypingStats.ts:42-44 and src/hooks/useTypingTest.tsx:127-135) is reduced to the predicate `TypingStats.StatsActive` and the guard in `StatsTick`.
- The mount effect (src/hooks/useTypingTest.tsx:93-102) is not part of the session class. It depends on `generateNewText`, whose identity changes with `state.difficulty`, so it runs not only at mount but again after every difficulty change, each time calling `generateNewText(initialDifficulty)`. `TypingTest.ChangeDifficultyAsWritten` models that re-run; see "## Findings".
- TypingTest.TypingSession.ChangeDifficulty: models the evidently intended behaviour: the requested difficulty sticks, with one new paragraph. As written, the effect re-run snaps the difficulty back to `initialDifficulty` after one or two further paragraphs (TypingTest.ChangeDifficultySnapsBack).
- Focusing the input field and the returned hook object (src/hooks/useTypingTest.tsx:86-89, 244-247, 250-268) are not modelled; they have no effect on the state.
- `playKeySound` is a call into the browser's Audio API and is not modelled. `HandleInputChange` returns the sound it would play (`Some(correct)`), and `None` when it plays none.
- Browser storage and encoding:
  - `localStorage` is a map, and `JSON.stringify`/`JSON.parse` are taken as exact inverses;
  - `btoa` is an opaque `encode` function. The only requirement on it is `encode("") == ""`, which makes the initial empty id agree with the empty text;
  - the exception `btoa` throws on characters outside Latin-1 is not modelled, since the word tables hold only ASCII letters;
  - a malformed stored value is not modelled, because the store holds only records.
- Strings are sequences of Unicode characters. Lengths, positions and `input[i]` count characters, whereas JavaScript's `length`, indexing and `split('')` count UTF-16 code units. Typing one character outside the Basic Multilingual Plane (an emoji, say) grows the input by two code units, and the code records one timing entry, at position 1 rather than 0, holding the low surrogate. The model records that keystroke at position 0 with the character itself. TypingTest.TypeForwardKeepsOrder's "one entry per character, at its position" therefore holds in the model on input for which the code's log has fewer entries than the input has code units. Only typed input is affected, because the word tables hold ASCII letters only.
- Numbers:
  - JavaScript floating point is modelled by exact reals;
  - progress on an empty text (`NaN` or `Infinity`) is `None`;
  - timestamps are unbounded integers.
- TextGenerator.Pick: a value of the random stream outside [0, 1) picks index 0. `Math.random()` never returns such a value.
- The `default` branch of the difficulty `switch` (src/utils/textGenerator.ts:48-49) cannot be reached with the three-valued `Difficulty` type.
- TypingStats.TickAccuracyPerfectOnPrefix: states only one direction. The converse is false because of rounding: 199 correct characters out of 200 also publish 100.
- The ghost-cursor replay (src/components/GhostCursor.tsx), `typingTextService`, and the UI components and page are not part of this model.
- The time limit and content type are not wired into the session, as in this revision of the hook. `Countdown` takes the time limit as an argument, and completion by the timer does not reach the session.

## Findings

| source | as written | input that shows it | evidently intended | confidence | as-written member | corrected member |
|---|---|---|---|---|---|---|
| src/hooks/useTypingTest.tsx:93-102 | the mount effect lists `generateNewText` as a dependency, and that callback changes identity with `state.difficulty` (line 90), so every difficulty change re-runs the effect, which calls `generateNewText(initialDifficulty)` | `useTypingTest()` with the default Medium (src/components/TypingTest.tsx:28), then the Hard button's `changeDifficulty('hard')` (src/components/TypingTest.tsx:111): the session ends at Medium with a newly generated paragraph | the difficulty buttons change the difficulty: the session stays at the requested difficulty | medium (not executed; follows from React's effect-dependency rule) | TypingTest.ChangeDifficultySnapsBack | TypingTest.ChangeDifficultySticks |
