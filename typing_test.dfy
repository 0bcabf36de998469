/**
 * The typing-session engine.  One state record is replaced by each handler;
 * finished attempts are kept as replay records in a key-value store under
 * `"typing-progress-" + id`, where `id` encodes the first 20 characters of
 * the paragraph.  The encoding (`btoa`) is an opaque function `encode`, the
 * JSON round trip through the store is the identity, and the current time is
 * the parameter `now` (milliseconds).
 */
module TypingTest {
  import opened TypingTypes
  import opened TypingUtils
  import opened TypingStats
  import TextGenerator

  /** The session record. */
  datatype TypingTestState = TypingTestState(
    text: string,
    input: string,
    isComplete: bool,
    startTime: Option<int>,
    endTime: Option<int>,
    wpm: int,
    accuracy: int,
    progress: Option<real>,
    difficulty: Difficulty,
    soundEnabled: bool,
    cursorPosition: int,
    characterTimings: seq<CharacterTiming>,
    previousTypingProgress: Option<seq<TypingProgress>>,
    paragraphId: string)

  /** The replay records, by key. */
  type Store = map<string, seq<TypingProgress>>

  const KeyPrefix: string := "typing-progress-"

  /** How many leading characters of a paragraph identify it. */
  const IdLength: nat := 20

  /** `text.substring(0, 20)`. */
  function Prefix(text: string): (r: string)
    ensures |r| == if |text| < IdLength then |text| else IdLength
    ensures r <= text
  {
    if |text| < IdLength then text else text[..IdLength]
  }

  /** `btoa(text.substring(0, 20))`. */
  function ParagraphId(encode: string -> string, text: string): string {
    encode(Prefix(text))
  }

  function StoreKey(paragraphId: string): string {
    KeyPrefix + paragraphId
  }

  /** `localStorage.getItem(key)` followed by `JSON.parse`, or `null` when absent. */
  function Lookup(store: Store, key: string): (r: Option<seq<TypingProgress>>)
    ensures r.Some? <==> key in store
    ensures r.Some? ==> r.value == store[key]
  {
    if key in store then Some(store[key]) else None
  }

  /** The record the session starts with, before its first paragraph. */
  function Initial(difficulty: Difficulty, soundEnabled: bool): TypingTestState {
    TypingTestState("", "", false, None, None, 0, 0, Some(0.0), difficulty, soundEnabled, 0, [], None, "")
  }

  /** The per-attempt fields reset, everything else kept. */
  function Cleared(s: TypingTestState): TypingTestState {
    s.(input := "", isComplete := false, startTime := None, endTime := None, wpm := 0, accuracy := 0,
       progress := Some(0.0), cursorPosition := 0, characterTimings := [])
  }

  /** Every per-attempt field holds its reset value. */
  predicate IsCleared(s: TypingTestState) {
    s == Cleared(s)
  }

  /**
   * What every handler keeps true: the cursor is the input's length, the
   * paragraph id belongs to the text, a started attempt knows whether it is
   * complete, and only a started attempt has keystrokes or is complete.
   */
  ghost predicate Consistent(s: TypingTestState, encode: string -> string) {
    && s.cursorPosition == |s.input|
    && s.paragraphId == ParagraphId(encode, s.text)
    && (s.startTime.Some? ==> s.isComplete == (|s.input| >= |s.text|))
    && (s.characterTimings != [] ==> s.startTime.Some?)
    && (s.isComplete ==> s.startTime.Some?)
  }

  lemma InitialConsistent(difficulty: Difficulty, soundEnabled: bool, encode: string -> string)
    requires encode("") == ""
    ensures Consistent(Initial(difficulty, soundEnabled), encode)
  {
  }

  // ---------------------------------------------------------------------------
  // generateNewText

  /** The record after `generateNewText(difficulty)` produced `text`, reading `store`. */
  function WithNewText(s: TypingTestState, encode: string -> string, store: Store, text: string,
                       difficulty: Difficulty): TypingTestState
  {
    var paragraphId := ParagraphId(encode, text);
    Cleared(s).(text := text, difficulty := difficulty,
                previousTypingProgress := Lookup(store, StoreKey(paragraphId)), paragraphId := paragraphId)
  }

  /**
   * A new paragraph starts a fresh attempt at the given difficulty, keeps the
   * sound setting, and loads the replay stored for the paragraph's id, if any.
   */
  lemma NewTextResets(s: TypingTestState, encode: string -> string, store: Store, text: string, difficulty: Difficulty)
    ensures var r := WithNewText(s, encode, store, text, difficulty);
      && IsCleared(r)
      && r.text == text && r.difficulty == difficulty && r.soundEnabled == s.soundEnabled
      && r.paragraphId == encode(Prefix(text))
      && (r.previousTypingProgress.Some? <==> StoreKey(r.paragraphId) in store)
      && (r.previousTypingProgress.Some? ==> r.previousTypingProgress.value == store[StoreKey(r.paragraphId)])
  {
  }

  /** Which replay is loaded depends only on the first 20 characters of the paragraph. */
  lemma NewTextDependsOnPrefix(s: TypingTestState, encode: string -> string, store: Store,
                               text1: string, text2: string, difficulty: Difficulty)
    requires Prefix(text1) == Prefix(text2)
    ensures WithNewText(s, encode, store, text1, difficulty).previousTypingProgress
         == WithNewText(s, encode, store, text2, difficulty).previousTypingProgress
    ensures WithNewText(s, encode, store, text1, difficulty).paragraphId
         == WithNewText(s, encode, store, text2, difficulty).paragraphId
  {
  }

  lemma NewTextConsistent(s: TypingTestState, encode: string -> string, store: Store, text: string,
                          difficulty: Difficulty)
    ensures Consistent(WithNewText(s, encode, store, text, difficulty), encode)
  {
  }

  // ---------------------------------------------------------------------------
  // handleInputChange

  /** `newCharacterTimings`: one entry appended when the input grew. */
  function TimingsAfterInput(s: TypingTestState, inputValue: string, now: int): seq<CharacterTiming> {
    if |inputValue| > |s.input| then
      s.characterTimings + [CharacterTiming(inputValue[|inputValue| - 1], now, |inputValue| - 1)]
    else
      s.characterTimings
  }

  /** The record after `handleInputChange(inputValue)` at time `now`, both state updates applied. */
  function AfterInput(s: TypingTestState, inputValue: string, now: int): TypingTestState {
    var complete := |inputValue| >= |s.text|;
    s.(startTime := if IsSet(s.startTime) then s.startTime else Some(now),
       input := inputValue,
       cursorPosition := |inputValue|,
       isComplete := complete,
       endTime := if complete then Some(now) else s.endTime,
       characterTimings := TimingsAfterInput(s, inputValue, now))
  }

  /** The store after `handleInputChange`: the normalised log saved under the paragraph's key once complete. */
  function StoreAfterInput(s: TypingTestState, inputValue: string, now: int, store: Store): Store {
    if |inputValue| >= |s.text| then
      store[StoreKey(s.paragraphId) := ProcessTypingProgress(TimingsAfterInput(s, inputValue, now))]
    else
      store
  }

  /**
   * The key sound `handleInputChange` plays: none unless the input grew and
   * sound is enabled, otherwise whether the new character is the text's
   * character at that position.
   */
  function KeySound(s: TypingTestState, inputValue: string): Option<bool> {
    if |inputValue| > |s.input| && s.soundEnabled then
      var i := |inputValue| - 1;
      Some(i < |s.text| && inputValue[i] == s.text[i])
    else
      None
  }

  /** The first keystroke starts the clock; later keystrokes never move it. */
  lemma InputStartTime(s: TypingTestState, inputValue: string, now: int)
    ensures var r := AfterInput(s, inputValue, now);
      && (IsSet(s.startTime) ==> r.startTime == s.startTime)
      && (!IsSet(s.startTime) ==> r.startTime == Some(now))
  {
  }

  /**
   * The log grows by exactly one entry, for the last character at the last
   * position, when the input grew, and is left alone otherwise.
   */
  lemma InputLogGrowsIffLonger(s: TypingTestState, inputValue: string, now: int)
    ensures var r := AfterInput(s, inputValue, now);
      && s.characterTimings <= r.characterTimings
      && (|r.characterTimings| == |s.characterTimings| + 1 <==> |inputValue| > |s.input|)
      && (|inputValue| <= |s.input| ==> r.characterTimings == s.characterTimings)
      && (|inputValue| > |s.input| ==>
            r.characterTimings[|r.characterTimings| - 1]
            == CharacterTiming(inputValue[|inputValue| - 1], now, |inputValue| - 1))
  {
  }

  /**
   * The input and cursor follow the new value, completion is reaching the
   * text's length, the end time is stamped on completion, and the paragraph,
   * settings, metrics and loaded replay are untouched.
   */
  lemma InputFields(s: TypingTestState, inputValue: string, now: int)
    ensures var r := AfterInput(s, inputValue, now);
      && r.input == inputValue && r.cursorPosition == |inputValue|
      && r.isComplete == (|inputValue| >= |s.text|)
      && r.endTime == (if r.isComplete then Some(now) else s.endTime)
      && r.text == s.text && r.paragraphId == s.paragraphId && r.difficulty == s.difficulty
      && r.soundEnabled == s.soundEnabled && r.previousTypingProgress == s.previousTypingProgress
      && r.wpm == s.wpm && r.accuracy == s.accuracy && r.progress == s.progress
  {
  }

  /**
   * On completion exactly the paragraph's entry becomes the normalised log;
   * before completion the store is untouched.
   */
  lemma InputStore(s: TypingTestState, inputValue: string, now: int, store: Store)
    ensures var r := AfterInput(s, inputValue, now);
      var after := StoreAfterInput(s, inputValue, now, store);
      var key := StoreKey(s.paragraphId);
      && (r.isComplete ==> key in after && after[key] == ProcessTypingProgress(r.characterTimings))
      && (!r.isComplete ==> after == store)
      && (forall k :: k != key ==> (k in after <==> k in store))
      && (forall k :: k != key && k in store ==> after[k] == store[k])
  {
  }

  /** A key sound is played exactly on growth with sound enabled, flagged correct iff the character matches. */
  lemma KeySoundIff(s: TypingTestState, inputValue: string)
    ensures KeySound(s, inputValue).Some? <==> |inputValue| > |s.input| && s.soundEnabled
    ensures KeySound(s, inputValue).Some? ==>
      (KeySound(s, inputValue).value <==>
         |inputValue| <= |s.text| && inputValue[|inputValue| - 1] == s.text[|inputValue| - 1])
  {
  }

  lemma InputConsistent(s: TypingTestState, encode: string -> string, inputValue: string, now: int)
    requires Consistent(s, encode)
    ensures Consistent(AfterInput(s, inputValue, now), encode)
  {
  }

  /**
   * The replay round trip: once an attempt completes, a later paragraph with
   * the same first 20 characters loads exactly the normalised log of it.
   */
  lemma CompletionReplayedOnSamePrefix(s: TypingTestState, encode: string -> string, store: Store,
                                        inputValue: string, now: int, text: string, difficulty: Difficulty)
    requires Consistent(s, encode)
    requires |inputValue| >= |s.text| && Prefix(text) == Prefix(s.text)
    ensures var r := AfterInput(s, inputValue, now);
      WithNewText(r, encode, StoreAfterInput(s, inputValue, now, store), text, difficulty).previousTypingProgress
      == Some(ProcessTypingProgress(r.characterTimings))
  {
  }

  /**
   * An attempt typed forward from a reset: one entry per typed character, at
   * its position and with that character, in time order, none after `clock`.
   */
  ghost predicate TypedInOrder(s: TypingTestState, clock: int) {
    && |s.characterTimings| == |s.input|
    && (forall i :: 0 <= i < |s.input| ==>
          s.characterTimings[i].ch == s.input[i] && s.characterTimings[i].position == i
          && s.characterTimings[i].timestamp <= clock)
    && TimestampsNonDecreasing(s.characterTimings)
  }

  lemma ClearedTypedInOrder(s: TypingTestState, clock: int)
    requires IsCleared(s)
    ensures TypedInOrder(s, clock)
  {
  }

  /** Typing one more character, no earlier than the last keystroke, keeps the log in step with the input. */
  lemma TypeForwardKeepsOrder(s: TypingTestState, clock: int, c: char, now: int)
    requires TypedInOrder(s, clock) && clock <= now
    ensures TypedInOrder(AfterInput(s, s.input + [c], now), now)
  {
    var r := AfterInput(s, s.input + [c], now);
    assert r.characterTimings == s.characterTimings + [CharacterTiming(c, now, |s.input|)];
    forall i | 0 <= i < |r.input|
      ensures r.characterTimings[i].ch == r.input[i] && r.characterTimings[i].position == i
              && r.characterTimings[i].timestamp <= now
    {
      if i < |s.input| {
        assert r.input[i] == s.input[i];
      }
    }
  }

  /** The replay of an attempt typed forward starts at 0 and never goes back in time. */
  lemma ReplayOfOrderedAttempt(s: TypingTestState, clock: int)
    requires TypedInOrder(s, clock)
    ensures var replay := ProcessTypingProgress(s.characterTimings);
      && |replay| == |s.input|
      && ProgressNonDecreasing(replay)
      && (forall i :: 0 <= i < |replay| ==> replay[i].timestamp >= 0 && replay[i].position == i)
  {
    NormalizedOrdered(s.characterTimings);
  }

  /**
   * Typing "cat" as "c" at 0 ms, "ca" at 100 ms and "cat" at 250 ms
   * completes the attempt at 250 ms and stores offsets 0, 100 and 250.
   * (A start time of 0 counts as unset, so the second keystroke restarts the
   * clock at 100 ms; the log is unaffected.)
   */
  lemma ScenarioCat(encode: string -> string, store: Store)
    ensures var s0 := WithNewText(Initial(Medium, true), encode, store, "cat", Medium);
      var s1 := AfterInput(s0, "c", 0);
      var s2 := AfterInput(s1, "ca", 100);
      var s3 := AfterInput(s2, "cat", 250);
      var saved := StoreAfterInput(s2, "cat", 250, StoreAfterInput(s1, "ca", 100, StoreAfterInput(s0, "c", 0, store)));
      && s3.isComplete && s3.endTime == Some(250) && s2.startTime == Some(100)
      && saved[StoreKey(encode("cat"))] == [TypingProgress(0, 0), TypingProgress(100, 1), TypingProgress(250, 2)]
  {
    var s0 := WithNewText(Initial(Medium, true), encode, store, "cat", Medium);
    assert Prefix("cat") == "cat";
    var s1 := AfterInput(s0, "c", 0);
    assert s1.characterTimings == [CharacterTiming('c', 0, 0)];
    var s2 := AfterInput(s1, "ca", 100);
    assert s2.characterTimings == [CharacterTiming('c', 0, 0), CharacterTiming('a', 100, 1)];
    var s3 := AfterInput(s2, "cat", 250);
    assert s3.characterTimings == [CharacterTiming('c', 0, 0), CharacterTiming('a', 100, 1), CharacterTiming('t', 250, 2)];
  }

  /**
   * Input after completion is not rejected: deleting the last character of a
   * completed attempt makes it incomplete again.
   */
  lemma InputAfterCompletionAccepted(encode: string -> string, store: Store)
    ensures var s := AfterInput(WithNewText(Initial(Medium, true), encode, store, "ab", Medium), "ab", 5);
      s.isComplete && AfterInput(s, "a", 6).input == "a" && !AfterInput(s, "a", 6).isComplete
  {
  }

  // ---------------------------------------------------------------------------
  // retryText, toggleSound

  /** `characterTimings.length > 0 && startTime`: the retry saves the current attempt first. */
  predicate RetrySaves(s: TypingTestState) {
    |s.characterTimings| > 0 && IsSet(s.startTime)
  }

  function AfterRetry(s: TypingTestState): TypingTestState {
    if RetrySaves(s) then
      Cleared(s).(previousTypingProgress := Some(ProcessTypingProgress(s.characterTimings)))
    else
      Cleared(s)
  }

  function StoreAfterRetry(s: TypingTestState, store: Store): Store {
    if RetrySaves(s) then store[StoreKey(s.paragraphId) := ProcessTypingProgress(s.characterTimings)] else store
  }

  /**
   * A retry keeps the paragraph and settings and starts a fresh attempt; when
   * it saves, the normalised log is both stored and loaded as the replay,
   * otherwise the store and the loaded replay are untouched.
   */
  lemma RetryResets(s: TypingTestState, store: Store)
    ensures var r := AfterRetry(s);
      var after := StoreAfterRetry(s, store);
      && IsCleared(r)
      && r.text == s.text && r.paragraphId == s.paragraphId
      && r.difficulty == s.difficulty && r.soundEnabled == s.soundEnabled
      && (RetrySaves(s) ==>
            var replay := ProcessTypingProgress(s.characterTimings);
            after == store[StoreKey(s.paragraphId) := replay] && r.previousTypingProgress == Some(replay))
      && (!RetrySaves(s) ==> after == store && r.previousTypingProgress == s.previousTypingProgress)
  {
  }

  /**
   * Retrying after typing 2 of 5 characters stores and loads the replay of
   * those two keystrokes and keeps the paragraph.
   */
  lemma ScenarioRetryAfterTwo(encode: string -> string, store: Store)
    ensures var s0 := WithNewText(Initial(Medium, true), encode, store, "hello", Medium);
      var s2 := AfterInput(AfterInput(s0, "h", 1000), "he", 1100);
      var r := AfterRetry(s2);
      && r.text == "hello" && r.input == ""
      && r.previousTypingProgress == Some([TypingProgress(0, 0), TypingProgress(100, 1)])
      && StoreAfterRetry(s2, store)[StoreKey(encode("hello"))] == [TypingProgress(0, 0), TypingProgress(100, 1)]
  {
    var s0 := WithNewText(Initial(Medium, true), encode, store, "hello", Medium);
    assert Prefix("hello") == "hello";
    var s1 := AfterInput(s0, "h", 1000);
    var s2 := AfterInput(s1, "he", 1100);
    assert s2.characterTimings == [CharacterTiming('h', 1000, 0), CharacterTiming('e', 1100, 1)];
    assert RetrySaves(s2);
    var replay := ProcessTypingProgress(s2.characterTimings);
    assert replay == [TypingProgress(0, 0), TypingProgress(100, 1)];
  }

  /** A retry right after a saving retry saves nothing more. */
  lemma RetryTwice(s: TypingTestState, store: Store)
    ensures StoreAfterRetry(AfterRetry(s), StoreAfterRetry(s, store)) == StoreAfterRetry(s, store)
    ensures AfterRetry(AfterRetry(s)) == AfterRetry(s)
  {
  }

  lemma RetryConsistent(s: TypingTestState, encode: string -> string)
    requires Consistent(s, encode)
    ensures Consistent(AfterRetry(s), encode)
  {
  }

  function AfterToggleSound(s: TypingTestState): TypingTestState {
    s.(soundEnabled := !s.soundEnabled)
  }

  /** Toggling flips the sound setting, changes nothing else, and toggling twice is no change. */
  lemma ToggleSoundFlips(s: TypingTestState, encode: string -> string)
    ensures AfterToggleSound(s).soundEnabled == !s.soundEnabled
    ensures AfterToggleSound(s).(soundEnabled := s.soundEnabled) == s
    ensures AfterToggleSound(AfterToggleSound(s)) == s
    ensures Consistent(s, encode) ==> Consistent(AfterToggleSound(s), encode)
  {
  }

  // ---------------------------------------------------------------------------
  // The statistics interval

  /** One firing of the statistics interval at `now`; while it is not active nothing runs. */
  function AfterStatsTick(s: TypingTestState, now: int): TypingTestState {
    if StatsActive(s.startTime, s.isComplete) then
      var stats := TickStats(s.text, s.input, s.cursorPosition, s.startTime.value, now);
      s.(wpm := stats.wpm, accuracy := stats.accuracy, progress := stats.progress)
    else
      s
  }

  /**
   * While an attempt runs, the published accuracy is a percentage and the
   * progress a percentage short of 100 (the attempt is not yet complete).
   */
  lemma StatsTickInRange(s: TypingTestState, encode: string -> string, now: int)
    requires Consistent(s, encode) && StatsActive(s.startTime, s.isComplete)
    ensures var r := AfterStatsTick(s, now);
      && 0 <= r.accuracy <= 100
      && r.progress.Some? && 0.0 <= r.progress.value < 100.0
  {
    TickAccuracyInRange(s.text, s.input, s.cursorPosition, s.startTime.value, now);
    TickProgressInRange(s.text, s.input, s.cursorPosition, s.startTime.value, now);
  }

  lemma StatsTickConsistent(s: TypingTestState, encode: string -> string, now: int)
    requires Consistent(s, encode)
    ensures Consistent(AfterStatsTick(s, now), encode)
  {
  }

  // ---------------------------------------------------------------------------
  // changeDifficulty and the mount effect

  /**
   * `changeDifficulty(newDifficulty)` as the hook is written, with the
   * renders that follow it.  The mount effect depends on `generateNewText`,
   * whose identity changes whenever `state.difficulty` does, so after every
   * render that changed the difficulty the effect runs again and calls
   * `generateNewText(initialDifficulty)`.  Generation `i` takes its draws
   * from `randoms(i)`.
   */
  function ChangeDifficultyAsWritten(s: TypingTestState, encode: string -> string, store: Store,
                                     newDifficulty: Difficulty, initialDifficulty: Difficulty,
                                     randoms: nat -> nat -> real): TypingTestState
  {
    var first := WithNewText(s, encode, store,
                             TextGenerator.ParagraphText(newDifficulty, TextGenerator.DefaultWordCount, randoms(0)),
                             newDifficulty);
    if first.difficulty == s.difficulty then first
    else
      var second := WithNewText(first, encode, store,
                                TextGenerator.ParagraphText(initialDifficulty, TextGenerator.DefaultWordCount, randoms(1)),
                                initialDifficulty);
      if second.difficulty == first.difficulty then second
      else
        WithNewText(second, encode, store,
                    TextGenerator.ParagraphText(initialDifficulty, TextGenerator.DefaultWordCount, randoms(2)),
                    initialDifficulty)
  }

  /**
   * As written, a change of difficulty does not stick: once the renders
   * settle the difficulty is the hook's initial one again, unless it was
   * asked for the difficulty the session already had.
   */
  lemma ChangeDifficultySnapsBack(s: TypingTestState, encode: string -> string, store: Store,
                                  newDifficulty: Difficulty, initialDifficulty: Difficulty,
                                  randoms: nat -> nat -> real)
    ensures ChangeDifficultyAsWritten(s, encode, store, newDifficulty, initialDifficulty, randoms).difficulty
         == if newDifficulty == s.difficulty then newDifficulty else initialDifficulty
  {
  }

  /** The page's default hook (initial difficulty Medium) and its Hard button: the session stays at Medium. */
  lemma HardButtonStaysMedium(s: TypingTestState, encode: string -> string, store: Store, randoms: nat -> nat -> real)
    requires s.difficulty == Medium
    ensures ChangeDifficultyAsWritten(s, encode, store, Hard, Medium, randoms).difficulty == Medium
  {
  }

  /**
   * The evidently intended `changeDifficulty`, which `TypingSession.ChangeDifficulty`
   * models: one new paragraph, and the difficulty is the one asked for.
   */
  lemma ChangeDifficultySticks(s: TypingTestState, encode: string -> string, store: Store,
                               newDifficulty: Difficulty, random: nat -> real)
    ensures var r := WithNewText(s, encode, store,
                                 TextGenerator.ParagraphText(newDifficulty, TextGenerator.DefaultWordCount, random),
                                 newDifficulty);
      && r.difficulty == newDifficulty
      && r.text == TextGenerator.ParagraphText(newDifficulty, TextGenerator.DefaultWordCount, random)
      && IsCleared(r) && r.soundEnabled == s.soundEnabled
  {
  }

  // ---------------------------------------------------------------------------
  // The session

  /**
   * One mounted `useTypingTest`: its state record, the browser's store of
   * replay records, and the id encoding.
   */
  class TypingSession {
    var state: TypingTestState
    var store: Store
    const encode: string -> string

    ghost predicate Valid()
      reads this
    {
      Consistent(state, encode)
    }

    /** `useTypingTest({initialDifficulty, soundEnabled})` (the defaults are `Medium` and `true`). */
    constructor(initialDifficulty: Difficulty, soundEnabled: bool, encode: string -> string, store: Store)
      requires encode("") == ""
      ensures Valid()
      ensures state == Initial(initialDifficulty, soundEnabled) && this.store == store && this.encode == encode
    {
      this.state := Initial(initialDifficulty, soundEnabled);
      this.store := store;
      this.encode := encode;
      InitialConsistent(initialDifficulty, soundEnabled, encode);
    }

    /**
     * `generateNewText(difficulty)` with the generator's draws `random`
     * (`generateNewText()` passes the current difficulty).
     */
    method GenerateNewText(difficulty: Difficulty, random: nat -> real)
      requires Valid()
      modifies this
      ensures Valid()
      ensures state == WithNewText(old(state), encode, old(store),
                                   TextGenerator.ParagraphText(difficulty, TextGenerator.DefaultWordCount, random),
                                   difficulty)
      ensures store == old(store)
    {
      var text := TextGenerator.GenerateParagraph(difficulty, TextGenerator.DefaultWordCount, random);
      var paragraphId := encode(Prefix(text));
      var previousProgress := Lookup(store, StoreKey(paragraphId));
      state := state.(text := text, input := "", isComplete := false, startTime := None, endTime := None,
                      wpm := 0, accuracy := 0, progress := Some(0.0), difficulty := difficulty,
                      cursorPosition := 0, characterTimings := [],
                      previousTypingProgress := previousProgress, paragraphId := paragraphId);
      NewTextConsistent(old(state), encode, store, text, difficulty);
    }

    /** `changeDifficulty(newDifficulty)`: a new paragraph at that difficulty. */
    method ChangeDifficulty(newDifficulty: Difficulty, random: nat -> real)
      requires Valid()
      modifies this
      ensures Valid()
      ensures state == WithNewText(old(state), encode, old(store),
                                   TextGenerator.ParagraphText(newDifficulty, TextGenerator.DefaultWordCount, random),
                                   newDifficulty)
      ensures store == old(store)
    {
      GenerateNewText(newDifficulty, random);
    }

    /**
     * `handleInputChange(inputValue)` at time `now`; `sound` is the key sound
     * played, if any (`Some(correct)`).
     */
    method HandleInputChange(inputValue: string, now: int) returns (sound: Option<bool>)
      requires Valid()
      modifies this
      ensures Valid()
      ensures state == AfterInput(old(state), inputValue, now)
      ensures store == StoreAfterInput(old(state), inputValue, now, old(store))
      ensures sound == KeySound(old(state), inputValue)
    {
      var isFirstInput := !IsSet(state.startTime);
      if isFirstInput {
        state := state.(startTime := Some(now));
      }
      var newCharacterTimings := state.characterTimings;
      sound := None;
      if |inputValue| > |state.input| {
        var newChar := inputValue[|inputValue| - 1];
        newCharacterTimings := newCharacterTimings + [CharacterTiming(newChar, now, |inputValue| - 1)];
        if state.soundEnabled {
          sound := Some(|inputValue| - 1 < |state.text| && newChar == state.text[|inputValue| - 1]);
        }
      }
      var isComplete := |inputValue| >= |state.text|;
      state := state.(input := inputValue, cursorPosition := |inputValue|, isComplete := isComplete,
                      endTime := if isComplete then Some(now) else state.endTime,
                      characterTimings := newCharacterTimings);
      if isComplete {
        store := store[StoreKey(state.paragraphId) := ProcessTypingProgress(newCharacterTimings)];
      }
      InputConsistent(old(state), encode, inputValue, now);
    }

    /** `toggleSound()`. */
    method ToggleSound()
      requires Valid()
      modifies this
      ensures Valid()
      ensures state == AfterToggleSound(old(state)) && store == old(store)
    {
      state := state.(soundEnabled := !state.soundEnabled);
      ToggleSoundFlips(old(state), encode);
    }

    /** `retryText()`. */
    method RetryText()
      requires Valid()
      modifies this
      ensures Valid()
      ensures state == AfterRetry(old(state)) && store == StoreAfterRetry(old(state), old(store))
    {
      if |state.characterTimings| > 0 && IsSet(state.startTime) {
        var typingProgress := ProcessTypingProgress(state.characterTimings);
        store := store[StoreKey(state.paragraphId) := typingProgress];
        state := state.(input := "", isComplete := false, startTime := None, endTime := None,
                        wpm := 0, accuracy := 0, progress := Some(0.0), cursorPosition := 0,
                        characterTimings := [], previousTypingProgress := Some(typingProgress));
      } else {
        state := state.(input := "", isComplete := false, startTime := None, endTime := None,
                        wpm := 0, accuracy := 0, progress := Some(0.0), cursorPosition := 0,
                        characterTimings := []);
      }
      RetryConsistent(old(state), encode);
    }

    /** One firing of the statistics interval at time `now`. */
    method StatsTick(now: int)
      requires Valid()
      modifies this
      ensures Valid()
      ensures state == AfterStatsTick(old(state), now) && store == old(store)
    {
      if state.startTime.Some? && state.startTime.value != 0 && !state.isComplete {
        var timeElapsed := ElapsedSeconds(state.startTime.value, now);
        var correctChars := CorrectChars(state.input, state.text);
        var currentWpm := CalculateWPM(state.cursorPosition, timeElapsed);
        var currentAccuracy := CalculateAccuracy(correctChars, |state.input|);
        var currentProgress := Progress(state.cursorPosition, |state.text|);
        state := state.(wpm := currentWpm, accuracy := currentAccuracy, progress := currentProgress);
      }
      StatsTickConsistent(old(state), encode, now);
    }
  }
}
