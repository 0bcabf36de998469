/**
 * The paragraph generator.  Every `Math.random()` draw of the generator is
 * read from a caller-supplied stream `random`, whose k-th value is the k-th
 * draw and lies in [0, 1).  With that stream the generator is deterministic.
 */
module TextGenerator {
  import opened TypingTypes

  // The word tables, row by row as they are laid out in the generator.
  const SimpleRow1: seq<string> := ["the", "be", "to", "of", "and", "a", "in", "that", "have", "I"]
  const SimpleRow2: seq<string> := ["it", "for", "not", "on", "with", "he", "as", "you", "do", "at"]
  const SimpleRow3: seq<string> := ["this", "but", "his", "by", "from", "they", "we", "say", "her", "she"]
  const SimpleRow4: seq<string> := ["or", "an", "will", "my", "one", "all", "would", "there", "their", "what"]
  const SimpleWords: seq<string> := SimpleRow1 + SimpleRow2 + SimpleRow3 + SimpleRow4

  const MediumRow1: seq<string> := ["about", "which", "when", "there", "other", "were", "into", "more", "your", "than"]
  const MediumRow2: seq<string> := ["first", "some", "time", "could", "these", "two", "may", "then", "over", "like"]
  const MediumRow3: seq<string> := ["also", "people", "year", "last", "most", "out", "after", "work", "use", "no"]
  const MediumRow4: seq<string> := ["way", "new", "many", "such", "great", "think", "same", "high", "every", "being"]
  const MediumWords: seq<string> := MediumRow1 + MediumRow2 + MediumRow3 + MediumRow4

  const ComplexRow1: seq<string> :=
    ["experience", "technology", "development", "consider", "government", "particular", "environment", "opportunity"]
  const ComplexRow2: seq<string> :=
    ["important", "significant", "different", "available", "information", "management", "understanding", "community"]
  const ComplexRow3: seq<string> :=
    ["performance", "knowledge", "generation", "organization", "quality", "structure", "authority", "individual"]
  const ComplexRow4: seq<string> :=
    ["challenge", "relationship", "university", "strategy", "beautiful", "establish", "necessary", "recognize"]
  const ComplexWords: seq<string> := ComplexRow1 + ComplexRow2 + ComplexRow3 + ComplexRow4

  /** End-of-sentence marks, drawn uniformly (so "." is the most likely). */
  const Punctuation: seq<string> := [".", ".", ".", ".", ",", ",", ",", "!", "?"]

  /** The default `wordCount` of a paragraph. */
  const DefaultWordCount := 50

  function Min(a: int, b: int): int { if a <= b then a else b }
  function Max(a: int, b: int): int { if a >= b then a else b }

  predicate Letter(c: char) { 'a' <= c <= 'z' || 'A' <= c <= 'Z' }

  /** A word made of ASCII letters only, so that it carries no separator and no mark. */
  predicate PlainWord(w: string) {
    w != [] && forall i :: 0 <= i < |w| ==> Letter(w[i])
  }

  ghost predicate PlainPool(pool: seq<string>) {
    forall i :: 0 <= i < |pool| ==> PlainWord(pool[i])
  }

  lemma PlainPoolAppend(a: seq<string>, b: seq<string>)
    requires PlainPool(a) && PlainPool(b)
    ensures PlainPool(a + b)
  {
    forall i | 0 <= i < |a + b| ensures PlainWord((a + b)[i]) {
      if i >= |a| { assert (a + b)[i] == b[i - |a|]; }
    }
  }

  /** The words of each table row are made of letters. */
  lemma SimpleRow1Plain() ensures PlainPool(SimpleRow1) {}
  lemma SimpleRow2Plain() ensures PlainPool(SimpleRow2) {}
  lemma SimpleRow3Plain() ensures PlainPool(SimpleRow3) {}
  lemma SimpleRow4Plain() ensures PlainPool(SimpleRow4) {}
  lemma MediumRow1Plain() ensures PlainPool(MediumRow1) {}
  lemma MediumRow2Plain() ensures PlainPool(MediumRow2) {}
  lemma MediumRow3Plain() ensures PlainPool(MediumRow3) {}
  lemma MediumRow4Plain() ensures PlainPool(MediumRow4) {}
  lemma ComplexRow1Plain() ensures PlainPool(ComplexRow1) {}
  lemma ComplexRow2Plain() ensures PlainPool(ComplexRow2) {}
  lemma ComplexRow3Plain() ensures PlainPool(ComplexRow3) {}
  lemma ComplexRow4Plain() ensures PlainPool(ComplexRow4) {}

  /** Every word of the three tables is made of letters. */
  lemma TablesPlain()
    ensures PlainPool(SimpleWords) && PlainPool(MediumWords) && PlainPool(ComplexWords)
  {
    SimpleRow1Plain(); SimpleRow2Plain(); SimpleRow3Plain(); SimpleRow4Plain();
    MediumRow1Plain(); MediumRow2Plain(); MediumRow3Plain(); MediumRow4Plain();
    ComplexRow1Plain(); ComplexRow2Plain(); ComplexRow3Plain(); ComplexRow4Plain();
    PlainPoolAppend(SimpleRow1, SimpleRow2);
    PlainPoolAppend(SimpleRow1 + SimpleRow2, SimpleRow3);
    PlainPoolAppend(SimpleRow1 + SimpleRow2 + SimpleRow3, SimpleRow4);
    PlainPoolAppend(MediumRow1, MediumRow2);
    PlainPoolAppend(MediumRow1 + MediumRow2, MediumRow3);
    PlainPoolAppend(MediumRow1 + MediumRow2 + MediumRow3, MediumRow4);
    PlainPoolAppend(ComplexRow1, ComplexRow2);
    PlainPoolAppend(ComplexRow1 + ComplexRow2, ComplexRow3);
    PlainPoolAppend(ComplexRow1 + ComplexRow2 + ComplexRow3, ComplexRow4);
  }

  /**
   * The words a difficulty draws from: the simple words for easy, simple and
   * medium words for medium, and all three tables for hard.
   */
  function WordPool(difficulty: Difficulty): (pool: seq<string>)
    ensures |pool| == match difficulty case Easy => 40 case Medium => 80 case Hard => 112
  {
    match difficulty
    case Easy => SimpleWords
    case Medium => SimpleWords + MediumWords
    case Hard => SimpleWords + MediumWords + ComplexWords
  }


  /**
   * `Math.floor(x * n)` for a draw `x` in [0, 1): an index below `n`.  No
   * draw of `Math.random()` lies outside [0, 1); for such a value the index
   * is 0, so that the generator's specification needs no assumption on the
   * stream.
   */
  function Pick(x: real, n: nat): (r: nat)
    requires n > 0
    ensures r < n
  {
    if 0.0 <= x < 1.0 then
      assert x * n as real < n as real by {
        assert n as real - x * n as real == (1.0 - x) * n as real;
      }
      (x * n as real).Floor
    else
      0
  }

  /** `Pick(x, n)` is the integer part of `x * n`. */
  lemma PickBounds(x: real, n: nat)
    requires 0.0 <= x < 1.0 && n > 0
    ensures Pick(x, n) as real <= x * n as real < Pick(x, n) as real + 1.0
  {
  }

  /** `toUpperCase` on one character, for the ASCII letters the word tables use. */
  function ToUpper(c: char): char {
    if 'a' <= c <= 'z' then (c as int - 32) as char else c
  }

  /** `w.charAt(0).toUpperCase() + w.slice(1)`. */
  function Capitalize(w: string): (r: string)
    ensures |r| == |w|
    ensures w != [] ==> r[1..] == w[1..]
  {
    if w == [] then [] else [ToUpper(w[0])] + w[1..]
  }

  /** Capitalizing a word of letters gives a word of letters whose first letter is upper-case. */
  lemma CapitalizePlain(w: string)
    requires PlainWord(w)
    ensures PlainWord(Capitalize(w))
    ensures 'A' <= Capitalize(w)[0] <= 'Z'
  {
    var r := Capitalize(w);
    forall i | 0 <= i < |r| ensures Letter(r[i]) {
      if i > 0 { assert r[i] == w[i]; }
    }
  }

  // ---------------------------------------------------------------------------
  // The generator's loops as functions over the strings it manipulates: the
  // specification the imperative method is proved against.

  /**
   * The inner `for` loop, from the state where `sentence` holds the first
   * `|sentence|` words (so the loop index is `|sentence|`), `room` is
   * `wordCount - result.length` and the next draw is `random(k)`.  Returns
   * the sentence before its end mark, and the index of the next draw.
   */
  function FillWords(pool: seq<string>, sentenceLength: nat, room: int, random: nat -> real,
                     k: nat, sentence: seq<string>): (r: (seq<string>, nat))
    requires |pool| > 0
    requires |sentence| <= sentenceLength
    decreases sentenceLength - |sentence|
  {
    var i := |sentence|;
    if i < sentenceLength && i < room then
      var randomWord := pool[Pick(random(k), |pool|)];
      if i == 0 then
        FillWords(pool, sentenceLength, room, random, k + 1, [Capitalize(randomWord)])
      else if 2 < i < sentenceLength - 1 then
        var marked := if random(k + 1) < 0.2 then sentence[i - 1 := sentence[i - 1] + ","] else sentence;
        FillWords(pool, sentenceLength, room, random, k + 2, marked + [randomWord])
      else
        FillWords(pool, sentenceLength, room, random, k + 1, sentence + [randomWord])
    else
      (sentence, k)
  }

  /**
   * The inner loop stops after `sentenceLength` words, or earlier when the
   * paragraph is full, and it never goes back in the stream.
   */
  lemma {:induction false} FillWordsBounds(pool: seq<string>, sentenceLength: nat, room: int,
                                           random: nat -> real, k: nat, sentence: seq<string>)
    requires |pool| > 0 && |sentence| <= sentenceLength
    ensures var r := FillWords(pool, sentenceLength, room, random, k, sentence);
      |r.0| == Max(|sentence|, Min(sentenceLength, room)) && k <= r.1
    decreases sentenceLength - |sentence|
  {
    var i := |sentence|;
    if i < sentenceLength && i < room {
      var randomWord := pool[Pick(random(k), |pool|)];
      if i == 0 {
        FillWordsBounds(pool, sentenceLength, room, random, k + 1, [Capitalize(randomWord)]);
      } else if 2 < i < sentenceLength - 1 {
        var marked := if random(k + 1) < 0.2 then sentence[i - 1 := sentence[i - 1] + ","] else sentence;
        FillWordsBounds(pool, sentenceLength, room, random, k + 2, marked + [randomWord]);
      } else {
        FillWordsBounds(pool, sentenceLength, room, random, k + 1, sentence + [randomWord]);
      }
    }
  }

  /** One turn of the inner loop, for a word after the first. */
  lemma FillWordsStep(pool: seq<string>, sentenceLength: nat, room: int, random: nat -> real, k: nat,
                      sentence: seq<string>, next: nat, marked: seq<string>)
    requires |pool| > 0
    requires 0 < |sentence| < sentenceLength && |sentence| < room
    requires var i := |sentence|;
      if 2 < i < sentenceLength - 1 then
        next == k + 2 && marked == (if random(k + 1) < 0.2 then sentence[i - 1 := sentence[i - 1] + ","] else sentence)
      else
        next == k + 1 && marked == sentence
    ensures FillWords(pool, sentenceLength, room, random, k, sentence)
         == FillWords(pool, sentenceLength, room, random, next, marked + [pool[Pick(random(k), |pool|)]])
  {
  }

  /**
   * The outer `while` loop, from the state where `result` holds the words
   * produced so far and the next draw is `random(k)`.  Returns the final
   * `result`.
   */
  function WordsFrom(pool: seq<string>, wordCount: int, random: nat -> real, k: nat,
                     result: seq<string>): (r: seq<string>)
    requires |pool| > 0
    decreases wordCount - |result|
  {
    if |result| < wordCount then
      var sentenceLength := Pick(random(k), 8) + 5;
      var filled := FillWords(pool, sentenceLength, wordCount - |result|, random, k + 1, []);
      FillWordsBounds(pool, sentenceLength, wordCount - |result|, random, k + 1, []);
      var sentence := filled.0;
      var punctuationMark := Punctuation[Pick(random(filled.1), |Punctuation|)];
      var ended := sentence[|sentence| - 1 := sentence[|sentence| - 1] + punctuationMark];
      WordsFrom(pool, wordCount, random, filled.1 + 1, result + ended)
    else
      result
  }

  /** One turn of the outer loop: a sentence is filled, given its end mark and appended. */
  lemma WordsFromStep(pool: seq<string>, wordCount: int, random: nat -> real, k: nat, result: seq<string>,
                      body: seq<string>, kMark: nat, ended: seq<string>)
    requires |pool| > 0 && |result| < wordCount
    requires (body, kMark) == FillWords(pool, Pick(random(k), 8) + 5, wordCount - |result|, random, k + 1, [])
    requires body != []
    requires ended == body[|body| - 1 := body[|body| - 1] + Punctuation[Pick(random(kMark), |Punctuation|)]]
    ensures WordsFrom(pool, wordCount, random, k, result) == WordsFrom(pool, wordCount, random, kMark + 1, result + ended)
  {
  }

  /** The words of `generateParagraph(difficulty, wordCount)` for the draws `random`, before joining. */
  function ParagraphWords(difficulty: Difficulty, wordCount: int, random: nat -> real): seq<string>
  {
    WordsFrom(WordPool(difficulty), wordCount, random, 0, [])
  }

  /** `generateParagraph(difficulty, wordCount)` for the draws `random`. */
  function ParagraphText(difficulty: Difficulty, wordCount: int, random: nat -> real): string
  {
    Join(ParagraphWords(difficulty, wordCount, random))
  }

  /** `[f(0), ..., f(count - 1)]`, built by appending as `generateParagraphs` does. */
  function Collect<T>(count: nat, f: nat -> T): (r: seq<T>)
    ensures |r| == count
  {
    if count == 0 then [] else Collect(count - 1, f) + [f(count - 1)]
  }

  /** Element `i` of `Collect(count, f)` is `f(i)`. */
  lemma {:induction false} CollectAt<T>(count: nat, f: nat -> T, i: nat)
    requires i < count
    ensures Collect(count, f)[i] == f(i)
  {
    if i < count - 1 {
      CollectAt(count - 1, f, i);
    }
  }

  // ---------------------------------------------------------------------------
  // A structured view of the same loops: each word remembers its table word,
  // its comma and its end mark, and the paragraph is a list of sentences.

  /**
   * One word of a sentence as the generator builds it: the table word (with
   * its first letter upper-cased for the first word), whether a comma was
   * appended to it, and the end mark appended to it ("" when none).
   */
  datatype Word = Word(base: string, comma: bool, mark: string)

  function Render(w: Word): string {
    w.base + (if w.comma then "," else "") + w.mark
  }

  function RenderAll(ws: seq<Word>): (r: seq<string>)
  {
    seq(|ws|, i requires 0 <= i < |ws| => Render(ws[i]))
  }

  lemma RenderAppend(a: seq<Word>, b: seq<Word>)
    ensures RenderAll(a + b) == RenderAll(a) + RenderAll(b)
  {
  }

  /** A table word with no comma and no mark renders as itself. */
  lemma RenderPlain(base: string)
    ensures Render(Word(base, false, "")) == base
  {
    assert base + "" + "" == base;
  }

  /** `sentence[sentence.length - 1] = lastWord + ","`. */
  function MarkComma(sentence: seq<Word>): (r: seq<Word>)
    requires sentence != []
  {
    sentence[|sentence| - 1 := sentence[|sentence| - 1].(comma := true)]
  }

  /** `sentence[sentence.length - 1] += punctuationMark`. */
  function MarkEnd(sentence: seq<Word>, mark: string): (r: seq<Word>)
    requires sentence != []
  {
    sentence[|sentence| - 1 := sentence[|sentence| - 1].(mark := mark)]
  }

  /** Marking the last word with a comma appends "," to its rendering. */
  lemma RenderMarkComma(sentence: seq<Word>)
    requires sentence != [] && sentence[|sentence| - 1].mark == "" && !sentence[|sentence| - 1].comma
    ensures var words := RenderAll(sentence);
      RenderAll(MarkComma(sentence)) == words[|words| - 1 := words[|words| - 1] + ","]
  {
    var n := |sentence| - 1;
    var words := RenderAll(sentence);
    var marked := RenderAll(MarkComma(sentence));
    assert |marked| == |words|;
    forall i | 0 <= i < |words| ensures marked[i] == words[|words| - 1 := words[|words| - 1] + ","][i] {
      if i == n { assert Render(sentence[n].(comma := true)) == Render(sentence[n]) + ","; }
    }
  }

  /** Marking the last (unmarked) word with an end mark appends the mark to its rendering. */
  lemma RenderMarkEnd(sentence: seq<Word>, mark: string)
    requires sentence != [] && sentence[|sentence| - 1].mark == ""
    ensures var words := RenderAll(sentence);
      RenderAll(MarkEnd(sentence, mark)) == words[|words| - 1 := words[|words| - 1] + mark]
  {
    var n := |sentence| - 1;
    var words := RenderAll(sentence);
    var marked := RenderAll(MarkEnd(sentence, mark));
    assert |marked| == |words|;
    forall i | 0 <= i < |words| ensures marked[i] == words[|words| - 1 := words[|words| - 1] + mark][i] {
      if i == n { assert Render(sentence[n].(mark := mark)) == Render(sentence[n]) + mark; }
    }
  }

  /** `FillWords` on the structured view of the words. */
  function FillSentence(pool: seq<string>, sentenceLength: nat, room: int, random: nat -> real,
                        k: nat, sentence: seq<Word>): (r: (seq<Word>, nat))
    requires |pool| > 0
    requires |sentence| <= sentenceLength
    decreases sentenceLength - |sentence|
  {
    var i := |sentence|;
    if i < sentenceLength && i < room then
      var randomWord := pool[Pick(random(k), |pool|)];
      if i == 0 then
        FillSentence(pool, sentenceLength, room, random, k + 1, [Word(Capitalize(randomWord), false, "")])
      else if 2 < i < sentenceLength - 1 then
        var marked := if random(k + 1) < 0.2 then MarkComma(sentence) else sentence;
        FillSentence(pool, sentenceLength, room, random, k + 2, marked + [Word(randomWord, false, "")])
      else
        FillSentence(pool, sentenceLength, room, random, k + 1, sentence + [Word(randomWord, false, "")])
    else
      (sentence, k)
  }

  /**
   * A sentence as the inner loop leaves it, before its end mark: at most
   * `sentenceLength` words, the first a capitalized pool word and the others
   * pool words, no end marks, and commas only after words 2 to
   * `sentenceLength - 3`, never after the last word so far.
   */
  ghost predicate BodyShape(pool: seq<string>, sentenceLength: nat, s: seq<Word>) {
    && |s| <= sentenceLength
    && (s != [] ==> exists j :: 0 <= j < |pool| && s[0].base == Capitalize(pool[j]))
    && (forall m :: 1 <= m < |s| ==> s[m].base in pool)
    && (forall m :: 0 <= m < |s| ==> s[m].mark == "")
    && (forall m :: 0 <= m < |s| && s[m].comma ==> 2 <= m < |s| - 1 && m + 2 < sentenceLength)
  }

  /**
   * The inner loop keeps the shape of the sentence, stops after
   * `sentenceLength` words or when the paragraph is full, and never goes
   * back in the stream.
   */
  lemma {:induction false} FillSentenceShape(pool: seq<string>, sentenceLength: nat, room: int,
                                             random: nat -> real, k: nat, sentence: seq<Word>)
    requires |pool| > 0 && BodyShape(pool, sentenceLength, sentence)
    ensures var r := FillSentence(pool, sentenceLength, room, random, k, sentence);
      && BodyShape(pool, sentenceLength, r.0)
      && |r.0| == Max(|sentence|, Min(sentenceLength, room))
      && k <= r.1
    decreases sentenceLength - |sentence|
  {
    var i := |sentence|;
    if i < sentenceLength && i < room {
      var j := Pick(random(k), |pool|);
      var randomWord := pool[j];
      if i == 0 {
        var next := [Word(Capitalize(randomWord), false, "")];
        assert BodyShape(pool, sentenceLength, next);
        FillSentenceShape(pool, sentenceLength, room, random, k + 1, next);
      } else if 2 < i < sentenceLength - 1 {
        var marked := if random(k + 1) < 0.2 then MarkComma(sentence) else sentence;
        var next := marked + [Word(randomWord, false, "")];
        assert next[0] == sentence[0];
        assert BodyShape(pool, sentenceLength, next);
        FillSentenceShape(pool, sentenceLength, room, random, k + 2, next);
      } else {
        var next := sentence + [Word(randomWord, false, "")];
        assert next[0] == sentence[0];
        assert BodyShape(pool, sentenceLength, next);
        FillSentenceShape(pool, sentenceLength, room, random, k + 1, next);
      }
    }
  }

  /** The sentences in order, concatenated into one word list. */
  function Flatten(sentences: seq<seq<Word>>): seq<Word> {
    if sentences == [] then [] else sentences[0] + Flatten(sentences[1..])
  }

  lemma FlattenCons(sentence: seq<Word>, rest: seq<seq<Word>>)
    ensures Flatten([sentence] + rest) == sentence + Flatten(rest)
  {
    assert ([sentence] + rest)[1..] == rest;
  }

  /**
   * One turn of the outer loop on the structured view, when `remaining`
   * words are missing and the next draw is `random(k)`: the finished sentence
   * and the index of the first draw after it.
   */
  function SentenceAt(pool: seq<string>, remaining: int, random: nat -> real, k: nat): (r: (seq<Word>, nat))
    requires |pool| > 0 && remaining > 0
  {
    var sentenceLength := Pick(random(k), 8) + 5;
    var filled := FillSentence(pool, sentenceLength, remaining, random, k + 1, []);
    FillSentenceShape(pool, sentenceLength, remaining, random, k + 1, []);
    var punctuationMark := Punctuation[Pick(random(filled.1), |Punctuation|)];
    (MarkEnd(filled.0, punctuationMark), filled.1 + 1)
  }

  /**
   * The sentences the outer loop still makes when `remaining` words are
   * missing and the next draw is `random(k)`.
   */
  function Sentences(pool: seq<string>, remaining: int, random: nat -> real, k: nat): (r: seq<seq<Word>>)
    requires |pool| > 0
    decreases remaining
  {
    if remaining > 0 then
      var step := SentenceAt(pool, remaining, random, k);
      SentenceAtShape(pool, remaining, random, k);
      [step.0] + Sentences(pool, remaining - |step.0|, random, step.1)
    else
      []
  }

  /** The sentences of `generateParagraph(difficulty, wordCount)` for the draws `random`. */
  function Paragraph(difficulty: Difficulty, wordCount: int, random: nat -> real): seq<seq<Word>>
  {
    Sentences(WordPool(difficulty), wordCount, random, 0)
  }

  /**
   * A finished sentence: 1 to 12 words, the first a capitalized pool word and
   * the others pool words, a mark from `Punctuation` on the last word and on
   * no other, and no comma on the first two words or the last word.  (The
   * tighter bound, which also depends on the drawn sentence length, is
   * `BodyShape`'s: a comma only on words 2 to `sentenceLength - 3`.)
   */
  ghost predicate SentenceShape(pool: seq<string>, s: seq<Word>) {
    && 1 <= |s| <= 12
    && (exists j :: 0 <= j < |pool| && s[0].base == Capitalize(pool[j]))
    && (forall m :: 1 <= m < |s| ==> s[m].base in pool)
    && (forall m :: 0 <= m < |s| - 1 ==> s[m].mark == "")
    && s[|s| - 1].mark in Punctuation
    && (forall m :: 0 <= m < |s| && s[m].comma ==> 2 <= m < |s| - 1)
  }

  /** Every sentence is well formed, and only the last may have fewer than 5 words. */
  ghost predicate ParagraphShape(pool: seq<string>, ss: seq<seq<Word>>) {
    && (forall i :: 0 <= i < |ss| ==> SentenceShape(pool, ss[i]))
    && (forall i :: 0 <= i < |ss| - 1 ==> |ss[i]| >= 5)
  }

  /** The end mark turns a sentence body of 1 to 12 words into a finished sentence. */
  lemma EndSentenceShape(pool: seq<string>, sentenceLength: nat, body: seq<Word>, mark: string)
    requires BodyShape(pool, sentenceLength, body) && 1 <= |body| && sentenceLength <= 12
    requires mark in Punctuation
    ensures SentenceShape(pool, MarkEnd(body, mark))
  {
    var s := MarkEnd(body, mark);
    assert s[0].base == body[0].base;
    forall m | 1 <= m < |s| ensures s[m].base in pool {
      assert s[m].base == body[m].base;
    }
    forall m | 0 <= m < |s| && s[m].comma ensures 2 <= m < |s| - 1 {
      assert s[m].comma == body[m].comma;
    }
  }

  /** Putting a well-formed sentence of at least 5 words in front keeps a paragraph well formed. */
  lemma ConsShape(pool: seq<string>, sentence: seq<Word>, rest: seq<seq<Word>>)
    requires SentenceShape(pool, sentence) && ParagraphShape(pool, rest)
    requires rest != [] ==> |sentence| >= 5
    ensures ParagraphShape(pool, [sentence] + rest)
  {
    var ss := [sentence] + rest;
    forall i | 1 <= i < |ss| ensures ss[i] == rest[i - 1] {}
  }

  /**
   * One sentence is well formed, takes at least one and at most `remaining`
   * words, and has at least 5 words unless it completes the paragraph.
   */
  lemma SentenceAtShape(pool: seq<string>, remaining: int, random: nat -> real, k: nat)
    requires |pool| > 0 && remaining > 0
    ensures var r := SentenceAt(pool, remaining, random, k);
      && SentenceShape(pool, r.0)
      && |r.0| <= remaining
      && (|r.0| < remaining ==> |r.0| >= 5)
      && k < r.1
  {
    var sentenceLength := Pick(random(k), 8) + 5;
    var filled := FillSentence(pool, sentenceLength, remaining, random, k + 1, []);
    assert |filled.0| == Min(sentenceLength, remaining) && k + 1 <= filled.1 by {
      FillSentenceShape(pool, sentenceLength, remaining, random, k + 1, []);
    }
    var punctuationMark := Punctuation[Pick(random(filled.1), |Punctuation|)];
    var sentence := MarkEnd(filled.0, punctuationMark);
    assert SentenceShape(pool, sentence) by {
      FillSentenceShape(pool, sentenceLength, remaining, random, k + 1, []);
      EndSentenceShape(pool, sentenceLength, filled.0, punctuationMark);
    }
    assert SentenceAt(pool, remaining, random, k) == (sentence, filled.1 + 1);
  }

  /**
   * The outer loop makes well-formed sentences, only the last of them shorter
   * than 5 words, and stops at exactly `remaining` words (none at all when
   * `remaining <= 0`).
   */
  lemma {:induction false} SentencesShape(pool: seq<string>, remaining: int, random: nat -> real, k: nat)
    requires |pool| > 0
    ensures var r := Sentences(pool, remaining, random, k);
      ParagraphShape(pool, r) && |Flatten(r)| == Max(remaining, 0)
    decreases remaining
  {
    if remaining > 0 {
      var step := SentenceAt(pool, remaining, random, k);
      SentenceAtShape(pool, remaining, random, k);
      var rest := Sentences(pool, remaining - |step.0|, random, step.1);
      SentencesShape(pool, remaining - |step.0|, random, step.1);
      ConsShape(pool, step.0, rest);
      FlattenCons(step.0, rest);
      assert Sentences(pool, remaining, random, k) == [step.0] + rest;
    } else {
      assert Sentences(pool, remaining, random, k) == [];
    }
  }

  /** The inner loop on strings renders the inner loop on words. */
  lemma {:induction false} FillRenders(pool: seq<string>, sentenceLength: nat, room: int, random: nat -> real,
                                       k: nat, built: seq<Word>)
    requires |pool| > 0 && |built| <= sentenceLength
    requires forall m :: 0 <= m < |built| ==> built[m].mark == ""
    requires built != [] ==> !built[|built| - 1].comma
    ensures var r := FillSentence(pool, sentenceLength, room, random, k, built);
      FillWords(pool, sentenceLength, room, random, k, RenderAll(built)) == (RenderAll(r.0), r.1)
    decreases sentenceLength - |built|
  {
    var i := |built|;
    var words := RenderAll(built);
    if i < sentenceLength && i < room {
      var randomWord := pool[Pick(random(k), |pool|)];
      var added := Word(randomWord, false, "");
      RenderPlain(randomWord);
      if i == 0 {
        var first := Word(Capitalize(randomWord), false, "");
        RenderPlain(Capitalize(randomWord));
        assert RenderAll([first]) == [Capitalize(randomWord)];
        FillRenders(pool, sentenceLength, room, random, k + 1, [first]);
      } else if 2 < i < sentenceLength - 1 {
        var marked := if random(k + 1) < 0.2 then MarkComma(built) else built;
        var markedWords := if random(k + 1) < 0.2 then words[i - 1 := words[i - 1] + ","] else words;
        if random(k + 1) < 0.2 { RenderMarkComma(built); }
        assert RenderAll(marked) == markedWords;
        RenderAppend(marked, [added]);
        assert RenderAll(marked + [added]) == markedWords + [randomWord];
        FillRenders(pool, sentenceLength, room, random, k + 2, marked + [added]);
      } else {
        RenderAppend(built, [added]);
        assert RenderAll(built + [added]) == words + [randomWord];
        FillRenders(pool, sentenceLength, room, random, k + 1, built + [added]);
      }
    }
  }

  /** One sentence on the structured view renders the sentence the string loops make. */
  lemma SentenceAtWords(pool: seq<string>, remaining: int, random: nat -> real, k: nat)
    requires |pool| > 0 && remaining > 0
    ensures var r := SentenceAt(pool, remaining, random, k);
      var filled := FillWords(pool, Pick(random(k), 8) + 5, remaining, random, k + 1, []);
      && filled.0 != []
      && r.1 == filled.1 + 1
      && RenderAll(r.0)
         == filled.0[|filled.0| - 1 := filled.0[|filled.0| - 1] + Punctuation[Pick(random(filled.1), |Punctuation|)]]
  {
    var sentenceLength := Pick(random(k), 8) + 5;
    var filled := FillSentence(pool, sentenceLength, remaining, random, k + 1, []);
    FillSentenceShape(pool, sentenceLength, remaining, random, k + 1, []);
    FillRenders(pool, sentenceLength, remaining, random, k + 1, []);
    assert RenderAll([]) == [];
    var punctuationMark := Punctuation[Pick(random(filled.1), |Punctuation|)];
    RenderMarkEnd(filled.0, punctuationMark);
    assert SentenceAt(pool, remaining, random, k) == (MarkEnd(filled.0, punctuationMark), filled.1 + 1);
  }

  /** One turn of the outer loop on strings appends the rendering of one sentence. */
  lemma SentenceAtRenders(pool: seq<string>, wordCount: int, random: nat -> real, k: nat, result: seq<string>)
    requires |pool| > 0 && |result| < wordCount
    ensures var r := SentenceAt(pool, wordCount - |result|, random, k);
      WordsFrom(pool, wordCount, random, k, result) == WordsFrom(pool, wordCount, random, r.1, result + RenderAll(r.0))
  {
    var remaining := wordCount - |result|;
    var filled := FillWords(pool, Pick(random(k), 8) + 5, remaining, random, k + 1, []);
    SentenceAtWords(pool, remaining, random, k);
    var r := SentenceAt(pool, remaining, random, k);
    WordsFromStep(pool, wordCount, random, k, result, filled.0, filled.1, RenderAll(r.0));
  }

  /** The outer loop on strings appends the rendering of the sentences still to come. */
  lemma {:induction false} SentencesRender(pool: seq<string>, wordCount: int, random: nat -> real, k: nat,
                                           result: seq<string>)
    requires |pool| > 0
    ensures WordsFrom(pool, wordCount, random, k, result)
         == result + RenderAll(Flatten(Sentences(pool, wordCount - |result|, random, k)))
    decreases wordCount - |result|
  {
    var remaining := wordCount - |result|;
    if remaining > 0 {
      var step := SentenceAt(pool, remaining, random, k);
      SentenceAtShape(pool, remaining, random, k);
      SentenceAtRenders(pool, wordCount, random, k, result);
      var rest := Sentences(pool, remaining - |step.0|, random, step.1);
      SentencesRender(pool, wordCount, random, step.1, result + RenderAll(step.0));
      FlattenCons(step.0, rest);
      RenderAppend(step.0, Flatten(rest));
      assert Sentences(pool, remaining, random, k) == [step.0] + rest;
    } else {
      assert Sentences(pool, remaining, random, k) == [];
      assert RenderAll([]) == [];
    }
  }

  /** `words.join(" ")`. */
  function Join(words: seq<string>): string {
    if words == [] then ""
    else if |words| == 1 then words[0]
    else words[0] + " " + Join(words[1..])
  }

  /** The first index of `c` in `s`. */
  function IndexOf(s: string, c: char): (i: nat)
    requires c in s
    ensures i < |s| && s[i] == c && c !in s[..i]
  {
    if s[0] == c then 0
    else
      assert c in s[1..] by { var j :| 0 <= j < |s| && s[j] == c; assert s[1..][j - 1] == c; }
      var i := 1 + IndexOf(s[1..], c);
      assert s[..i] == [s[0]] + s[1..][..i - 1];
      i
  }

  /** `s.split(" ")`. */
  function Split(s: string): (r: seq<string>)
    ensures |r| > 0
    decreases |s|
  {
    if ' ' in s then
      var i := IndexOf(s, ' ');
      [s[..i]] + Split(s[i + 1..])
    else
      [s]
  }

  /** The first space of `w + " " + t`, for a space-free `w`, is the one after `w`. */
  lemma {:induction false} IndexOfSeparator(w: string, t: string)
    requires ' ' !in w
    ensures IndexOf(w + " " + t, ' ') == |w|
    decreases |w|
  {
    var s := w + " " + t;
    if w != [] {
      assert s[0] == w[0];
      assert s[1..] == w[1..] + " " + t;
      IndexOfSeparator(w[1..], t);
    }
  }

  /** Splitting at the space after a space-free first word. */
  lemma SplitCons(w: string, t: string)
    requires ' ' !in w
    ensures Split(w + " " + t) == [w] + Split(t)
  {
    var s := w + " " + t;
    assert s[|w|] == ' ';
    IndexOfSeparator(w, t);
    assert s[..|w|] == w;
    assert s[|w| + 1..] == t;
  }

  /** A list of space-free words survives `join(" ")` followed by `split(" ")`. */
  lemma {:induction false} SplitJoin(words: seq<string>)
    requires words != [] && forall i :: 0 <= i < |words| ==> ' ' !in words[i]
    ensures Split(Join(words)) == words
    decreases |words|
  {
    if |words| > 1 {
      SplitCons(words[0], Join(words[1..]));
      SplitJoin(words[1..]);
      assert words == [words[0]] + words[1..];
    }
  }

  /** Every table a difficulty uses is made of letters. */
  lemma WordPoolPlain(difficulty: Difficulty)
    ensures PlainPool(WordPool(difficulty))
  {
    TablesPlain();
    PlainPoolAppend(SimpleWords, MediumWords);
    PlainPoolAppend(SimpleWords + MediumWords, ComplexWords);
  }

  ghost predicate SpaceFree(w: Word) {
    ' ' !in Render(w)
  }

  /** The words of a well-formed sentence over a table of plain words carry no space. */
  lemma SentenceSpaceFree(pool: seq<string>, s: seq<Word>)
    requires PlainPool(pool) && SentenceShape(pool, s)
    ensures forall m :: 0 <= m < |s| ==> SpaceFree(s[m])
  {
    forall m | 0 <= m < |s| ensures SpaceFree(s[m]) {
      var w := s[m];
      if m == 0 {
        var j :| 0 <= j < |pool| && w.base == Capitalize(pool[j]);
        CapitalizePlain(pool[j]);
      } else {
        var j :| 0 <= j < |pool| && pool[j] == w.base;
      }
      assert PlainWord(w.base);
      assert w.mark == "" || w.mark in Punctuation;
      var rendered := Render(w);
      forall c | 0 <= c < |rendered| ensures rendered[c] != ' ' {
        if c < |w.base| { assert rendered[c] == w.base[c]; }
      }
    }
  }

  lemma {:induction false} FlattenSpaceFree(pool: seq<string>, ss: seq<seq<Word>>)
    requires PlainPool(pool) && forall i :: 0 <= i < |ss| ==> SentenceShape(pool, ss[i])
    ensures forall x :: 0 <= x < |Flatten(ss)| ==> SpaceFree(Flatten(ss)[x])
    decreases |ss|
  {
    if ss != [] {
      SentenceSpaceFree(pool, ss[0]);
      FlattenSpaceFree(pool, ss[1..]);
      var f := Flatten(ss);
      forall x | 0 <= x < |f| ensures SpaceFree(f[x]) {
        if x >= |ss[0]| { assert f[x] == Flatten(ss[1..])[x - |ss[0]|]; }
      }
    }
  }

  /** The last word of the sentences is the last word of the last sentence. */
  lemma {:induction false} FlattenLast(ss: seq<seq<Word>>)
    requires ss != [] && ss[|ss| - 1] != []
    ensures var f := Flatten(ss); var s := ss[|ss| - 1];
      f != [] && f[|f| - 1] == s[|s| - 1]
    decreases |ss|
  {
    if |ss| > 1 {
      FlattenLast(ss[1..]);
    }
  }

  // ---------------------------------------------------------------------------
  // What a generated paragraph is.

  /** The paragraph's words are the rendered words of its sentences. */
  lemma ParagraphWordsRender(difficulty: Difficulty, wordCount: int, random: nat -> real)
    ensures ParagraphWords(difficulty, wordCount, random) == RenderAll(Flatten(Paragraph(difficulty, wordCount, random)))
  {
    SentencesRender(WordPool(difficulty), wordCount, random, 0, []);
    assert [] + RenderAll(Flatten(Paragraph(difficulty, wordCount, random)))
        == RenderAll(Flatten(Paragraph(difficulty, wordCount, random)));
  }

  /**
   * A paragraph has exactly `wordCount` words (none when `wordCount <= 0`),
   * and is a list of well-formed sentences of which only the last may have
   * fewer than 5 words.
   */
  lemma ParagraphWellFormed(difficulty: Difficulty, wordCount: int, random: nat -> real)
    ensures ParagraphShape(WordPool(difficulty), Paragraph(difficulty, wordCount, random))
    ensures |ParagraphWords(difficulty, wordCount, random)| == Max(wordCount, 0)
  {
    SentencesShape(WordPool(difficulty), wordCount, random, 0);
    ParagraphWordsRender(difficulty, wordCount, random);
  }

  /** `generateParagraph` with `wordCount <= 0` returns the empty string. */
  lemma ParagraphEmpty(difficulty: Difficulty, wordCount: int, random: nat -> real)
    requires wordCount <= 0
    ensures ParagraphText(difficulty, wordCount, random) == ""
  {
    ParagraphWellFormed(difficulty, wordCount, random);
  }

  /** The first rendered word of well-formed sentences starts with a capitalized table word. */
  lemma FirstWordCapitalized(pool: seq<string>, ss: seq<seq<Word>>)
    requires ss != [] && SentenceShape(pool, ss[0])
    ensures var words := RenderAll(Flatten(ss));
      words != [] && exists j :: 0 <= j < |pool| && Capitalize(pool[j]) <= words[0]
  {
    var f := Flatten(ss);
    assert f[0] == ss[0][0];
    var j :| 0 <= j < |pool| && ss[0][0].base == Capitalize(pool[j]);
    assert RenderAll(f)[0] == Render(f[0]);
  }

  /** `s` ends with one of the end marks. */
  predicate EndsWithMark(s: string) {
    s != [] && [s[|s| - 1]] in Punctuation
  }

  lemma RenderEndsWithMark(w: Word)
    requires w.mark in Punctuation
    ensures EndsWithMark(Render(w))
  {
    assert |w.mark| == 1;
    var rendered := Render(w);
    assert rendered[|rendered| - 1] == w.mark[0];
    assert [w.mark[0]] == w.mark;
  }

  /** The last rendered word of well-formed sentences ends with an end mark. */
  lemma LastWordMarked(pool: seq<string>, ss: seq<seq<Word>>)
    requires ss != [] && SentenceShape(pool, ss[|ss| - 1])
    ensures var words := RenderAll(Flatten(ss));
      words != [] && EndsWithMark(words[|words| - 1])
  {
    var s := ss[|ss| - 1];
    FlattenLast(ss);
    var f := Flatten(ss);
    var w := s[|s| - 1];
    assert RenderAll(f)[|f| - 1] == Render(w);
    RenderEndsWithMark(w);
  }

  /** A non-empty paragraph starts with a capitalized table word. */
  lemma ParagraphStartsCapitalized(difficulty: Difficulty, wordCount: int, random: nat -> real)
    requires wordCount > 0
    ensures var words := ParagraphWords(difficulty, wordCount, random);
      var pool := WordPool(difficulty);
      words != [] && exists j :: 0 <= j < |pool| && Capitalize(pool[j]) <= words[0]
  {
    var ss := Paragraph(difficulty, wordCount, random);
    ParagraphWellFormed(difficulty, wordCount, random);
    ParagraphWordsRender(difficulty, wordCount, random);
    assert ss != [];
    assert SentenceShape(WordPool(difficulty), ss[0]);
    FirstWordCapitalized(WordPool(difficulty), ss);
  }

  /** The last word of a non-empty paragraph ends with one of the end marks. */
  lemma ParagraphEndsWithMark(difficulty: Difficulty, wordCount: int, random: nat -> real)
    requires wordCount > 0
    ensures var words := ParagraphWords(difficulty, wordCount, random);
      words != [] && EndsWithMark(words[|words| - 1])
  {
    var ss := Paragraph(difficulty, wordCount, random);
    ParagraphWellFormed(difficulty, wordCount, random);
    ParagraphWordsRender(difficulty, wordCount, random);
    assert ss != [];
    assert SentenceShape(WordPool(difficulty), ss[|ss| - 1]);
    LastWordMarked(WordPool(difficulty), ss);
  }

  /**
   * Splitting a non-empty paragraph at its spaces gives back its words, so
   * its words are exactly `wordCount` space-free words joined by single spaces.
   */
  lemma ParagraphSplit(difficulty: Difficulty, wordCount: int, random: nat -> real)
    requires wordCount > 0
    ensures Split(ParagraphText(difficulty, wordCount, random)) == ParagraphWords(difficulty, wordCount, random)
    ensures |Split(ParagraphText(difficulty, wordCount, random))| == wordCount
  {
    var pool := WordPool(difficulty);
    var ss := Paragraph(difficulty, wordCount, random);
    ParagraphWellFormed(difficulty, wordCount, random);
    ParagraphWordsRender(difficulty, wordCount, random);
    WordPoolPlain(difficulty);
    FlattenSpaceFree(pool, ss);
    var words := ParagraphWords(difficulty, wordCount, random);
    var f := Flatten(ss);
    forall i | 0 <= i < |words| ensures ' ' !in words[i] {
      assert words[i] == Render(f[i]);
      assert SpaceFree(f[i]);
    }
    SplitJoin(words);
  }

  // ---------------------------------------------------------------------------
  // The generator as the source writes it.

  /**
   * The inner `for` loop of `generateParagraph`: the words of one sentence,
   * before its end mark, when `resultLength` words are already in the
   * paragraph; the draws start at `random(k0)`.
   */
  method BuildSentence(words: seq<string>, sentenceLength: nat, resultLength: nat, wordCount: int,
                       random: nat -> real, k0: nat) returns (sentence: seq<string>, k: nat)
    requires |words| > 0
    ensures (sentence, k) == FillWords(words, sentenceLength, wordCount - resultLength, random, k0, [])
  {
    sentence := [];
    k := k0;
    var i := 0;
    while i < sentenceLength && resultLength + |sentence| < wordCount
      invariant i == |sentence| <= sentenceLength
      invariant FillWords(words, sentenceLength, wordCount - resultLength, random, k, sentence)
             == FillWords(words, sentenceLength, wordCount - resultLength, random, k0, [])
    {
      ghost var kWord, before := k, sentence;
      var randomWord := words[Pick(random(k), |words|)];
      k := k + 1;
      if i == 0 {
        sentence := sentence + [Capitalize(randomWord)];
        assert sentence == [Capitalize(randomWord)];
      } else {
        if i > 2 && i < sentenceLength - 1 {
          var draw := random(k);
          k := k + 1;
          if draw < 0.2 {
            var lastWord := sentence[|sentence| - 1];
            sentence := sentence[|sentence| - 1 := lastWord + ","];
          }
        }
        FillWordsStep(words, sentenceLength, wordCount - resultLength, random, kWord, before, k, sentence);
        sentence := sentence + [randomWord];
      }
      i := i + 1;
    }
  }

  /**
   * The outer `while` loop of `generateParagraph`, over the word pool its
   * `switch` selected: the words of the paragraph before they are joined.
   */
  method GenerateWords(words: seq<string>, wordCount: int, random: nat -> real) returns (result: seq<string>)
    requires |words| > 0
    ensures result == WordsFrom(words, wordCount, random, 0, [])
  {
    result := [];
    var k: nat := 0;
    while |result| < wordCount
      invariant WordsFrom(words, wordCount, random, k, result) == WordsFrom(words, wordCount, random, 0, [])
      decreases wordCount - |result|
    {
      ghost var kStart := k;
      var sentenceLength := Pick(random(k), 8) + 5;
      k := k + 1;
      var sentence;
      FillWordsBounds(words, sentenceLength, wordCount - |result|, random, k, []);
      sentence, k := BuildSentence(words, sentenceLength, |result|, wordCount, random, k);
      ghost var body, kMark := sentence, k;
      var punctuationMark := Punctuation[Pick(random(k), |Punctuation|)];
      k := k + 1;
      sentence := sentence[|sentence| - 1 := sentence[|sentence| - 1] + punctuationMark];
      WordsFromStep(words, wordCount, random, kStart, result, body, kMark, sentence);
      result := result + sentence;
    }
  }

  /** `generateParagraph(difficulty, wordCount)` with the draws taken from `random`. */
  method GenerateParagraph(difficulty: Difficulty, wordCount: int, random: nat -> real) returns (text: string)
    ensures text == ParagraphText(difficulty, wordCount, random)
  {
    var words: seq<string>;
    match difficulty {
      case Easy => words := SimpleWords;
      case Medium => words := SimpleWords + MediumWords;
      case Hard => words := SimpleWords + MediumWords + ComplexWords;
    }
    assert words == WordPool(difficulty);
    var result := GenerateWords(words, wordCount, random);
    text := Join(result);
  }

  /**
   * `generateParagraphs(count, difficulty, wordsPerParagraph)`; paragraph `i`
   * takes its draws from `randoms(i)`.
   */
  method GenerateParagraphs(count: int, difficulty: Difficulty, wordsPerParagraph: int,
                            randoms: nat -> nat -> real) returns (paragraphs: seq<string>)
    ensures paragraphs == Collect(Max(count, 0), (i: nat) => ParagraphText(difficulty, wordsPerParagraph, randoms(i)))
  {
    ghost var paragraphAt := (i: nat) => ParagraphText(difficulty, wordsPerParagraph, randoms(i));
    paragraphs := [];
    var i := 0;
    while i < count
      invariant 0 <= i <= Max(count, 0)
      invariant paragraphs == Collect(i, paragraphAt)
    {
      var paragraph := GenerateParagraph(difficulty, wordsPerParagraph, randoms(i));
      assert paragraph == paragraphAt(i);
      paragraphs := paragraphs + [paragraph];
      i := i + 1;
    }
    assert i == Max(count, 0);
  }
}
