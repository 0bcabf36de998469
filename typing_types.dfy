/** Value types shared by the typing-session engine. */
module TypingTypes {

  /** A JavaScript value that may be `null`. */
  datatype Option<+T> = None | Some(value: T)

  /** One accepted keystroke: the character typed, when (milliseconds) and where. */
  datatype CharacterTiming = CharacterTiming(ch: char, timestamp: int, position: int)

  /** One replay entry: a timestamp relative to the first keystroke, and a position. */
  datatype TypingProgress = TypingProgress(timestamp: int, position: int)

  /** The three difficulty levels of the generated text. */
  datatype Difficulty = Easy | Medium | Hard

  /** The allowed time budgets of a timed test, in seconds; 0 means no limit. */
  type TimeLimit = t: int | t == 0 || t == 15 || t == 30 || t == 60 || t == 120

  /** JavaScript truthiness of a `number | null` timestamp: `null` and `0` are both falsy. */
  predicate IsSet(t: Option<int>) {
    t.Some? && t.value != 0
  }
}
