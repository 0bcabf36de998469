/** The metric helpers: words per minute, accuracy and replay normalisation. */
module TypingUtils {
  import opened TypingTypes

  /** JavaScript `Math.round`: the nearest integer, halves rounded towards +infinity. */
  function Round(x: real): (r: int)
    ensures r as real - 0.5 <= x < r as real + 0.5
  {
    (x + 0.5).Floor
  }

  lemma RoundMonotone(x: real, y: real)
    requires x <= y
    ensures Round(x) <= Round(y)
  {
  }

  lemma RoundOfInteger(n: int)
    ensures Round(n as real) == n
  {
  }

  /**
   * Words per minute for `textLength` characters typed in `timeInSeconds`,
   * counting five characters per word.  Only a time of exactly zero is
   * guarded; a negative time yields a negative (or zero) rate.
   */
  function CalculateWPM(textLength: int, timeInSeconds: real): (r: int)
    ensures timeInSeconds == 0.0 ==> r == 0
    ensures timeInSeconds != 0.0 ==>
      var perMinute := (textLength as real / 5.0) / (timeInSeconds / 60.0);
      r as real - 0.5 <= perMinute < r as real + 0.5
  {
    var words := textLength as real / 5.0;
    var minutes := timeInSeconds / 60.0;
    if minutes == 0.0 then 0 else Round(words / minutes)
  }

  lemma WpmNothingTyped(timeInSeconds: real)
    ensures CalculateWPM(0, timeInSeconds) == 0
  {
  }

  lemma WpmOneWordPerMinute()
    ensures CalculateWPM(5, 60.0) == 1
  {
    RoundOfInteger(1);
  }

  /** The zero guard does not cover negative times: five characters in minus one minute is -1. */
  lemma WpmNegativeTimeNotClamped()
    ensures CalculateWPM(5, -60.0) == -1
  {
    RoundOfInteger(-1);
  }

  /** For a fixed positive time, typing more characters never lowers the rate. */
  lemma WpmMonotoneInCharacters(n: int, m: int, timeInSeconds: real)
    requires n <= m && timeInSeconds > 0.0
    ensures CalculateWPM(n, timeInSeconds) <= CalculateWPM(m, timeInSeconds)
  {
    var minutes := timeInSeconds / 60.0;
    assert (n as real / 5.0) / minutes <= (m as real / 5.0) / minutes by {
      assert n as real / 5.0 <= m as real / 5.0;
      DivideMonotone(n as real / 5.0, m as real / 5.0, minutes);
    }
    RoundMonotone((n as real / 5.0) / minutes, (m as real / 5.0) / minutes);
  }

  lemma DivideMonotone(a: real, b: real, d: real)
    requires a <= b && d > 0.0
    ensures a / d <= b / d
  {
    assert (b - a) / d >= 0.0;
    assert b / d - a / d == (b - a) / d;
  }

  /**
   * Accuracy as a whole percentage of `correctChars` out of `totalChars`;
   * 100 when nothing was typed.
   */
  function CalculateAccuracy(correctChars: int, totalChars: int): (r: int)
    ensures totalChars == 0 ==> r == 100
    ensures totalChars != 0 ==>
      var percent := (correctChars as real / totalChars as real) * 100.0;
      r as real - 0.5 <= percent < r as real + 0.5
    ensures 0 <= correctChars <= totalChars ==> 0 <= r <= 100
  {
    if totalChars == 0 then 100
    else
      var ratio := correctChars as real / totalChars as real;
      RoundedPercentInRange(correctChars, totalChars);
      Round(ratio * 100.0)
  }

  lemma RoundedPercentInRange(correctChars: int, totalChars: int)
    requires totalChars != 0
    ensures 0 <= correctChars <= totalChars ==>
      0 <= Round((correctChars as real / totalChars as real) * 100.0) <= 100
  {
    if 0 <= correctChars <= totalChars {
      var t := totalChars as real;
      var percent := (correctChars as real / t) * 100.0;
      DivideMonotone(0.0, correctChars as real, t);
      DivideMonotone(correctChars as real, t, t);
      RoundMonotone(0.0, percent);
      RoundMonotone(percent, 100.0);
      RoundOfInteger(0);
      RoundOfInteger(100);
    }
  }

  lemma AccuracyAllCorrect(totalChars: int)
    requires totalChars > 0
    ensures CalculateAccuracy(totalChars, totalChars) == 100
  {
    assert totalChars as real / totalChars as real == 1.0;
    RoundOfInteger(100);
  }

  lemma AccuracyNoneCorrect(totalChars: int)
    requires totalChars > 0
    ensures CalculateAccuracy(0, totalChars) == 0
  {
    RoundOfInteger(0);
  }

  /** The keystroke log with every timestamp taken relative to `origin`. */
  function Rebase(timings: seq<CharacterTiming>, origin: int): (r: seq<TypingProgress>)
    ensures |r| == |timings|
    ensures forall i :: 0 <= i < |r| ==>
      r[i].timestamp == timings[i].timestamp - origin && r[i].position == timings[i].position
  {
    if timings == [] then []
    else [TypingProgress(timings[0].timestamp - origin, timings[0].position)] + Rebase(timings[1..], origin)
  }

  /**
   * The replay record of a keystroke log: empty for an empty log, otherwise
   * each entry's position with its timestamp relative to the first keystroke.
   */
  function ProcessTypingProgress(timings: seq<CharacterTiming>): (r: seq<TypingProgress>)
    ensures |r| == |timings|
    ensures forall i :: 0 <= i < |r| ==>
      r[i].position == timings[i].position &&
      r[i].timestamp == timings[i].timestamp - timings[0].timestamp
    ensures |r| > 0 ==> r[0].timestamp == 0
  {
    if |timings| == 0 then [] else Rebase(timings, timings[0].timestamp)
  }

  ghost predicate TimestampsNonDecreasing(timings: seq<CharacterTiming>) {
    forall i, j :: 0 <= i <= j < |timings| ==> timings[i].timestamp <= timings[j].timestamp
  }

  ghost predicate ProgressNonDecreasing(progress: seq<TypingProgress>) {
    forall i, j :: 0 <= i <= j < |progress| ==> progress[i].timestamp <= progress[j].timestamp
  }

  /** A log recorded in time order normalises to non-negative, non-decreasing offsets. */
  lemma NormalizedOrdered(timings: seq<CharacterTiming>)
    requires TimestampsNonDecreasing(timings)
    ensures ProgressNonDecreasing(ProcessTypingProgress(timings))
    ensures forall i :: 0 <= i < |timings| ==> ProcessTypingProgress(timings)[i].timestamp >= 0
  {
  }

  /** Shifting every timestamp by the same amount does not change the replay record. */
  lemma NormalizeShiftInvariant(timings: seq<CharacterTiming>, shifted: seq<CharacterTiming>, delta: int)
    requires |shifted| == |timings|
    requires forall i :: 0 <= i < |timings| ==>
      shifted[i] == timings[i].(timestamp := timings[i].timestamp + delta)
    ensures ProcessTypingProgress(shifted) == ProcessTypingProgress(timings)
  {
  }

  lemma NormalizeEmpty()
    ensures ProcessTypingProgress([]) == []
  {
  }

  lemma NormalizeExample()
    ensures ProcessTypingProgress([CharacterTiming('a', 100, 0), CharacterTiming('b', 250, 1)])
         == [TypingProgress(0, 0), TypingProgress(150, 1)]
  {
  }
}
