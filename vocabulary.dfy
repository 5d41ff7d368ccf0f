/** The vocabulary test of js/vocabulary.js: a shuffled run through the
    words of one unit in one of four modes (choose the meaning, choose the
    Russian word, type the word, type what you hear), scored and recorded
    word by word. */
module Vocabulary {
  import opened Results
  import opened Text
  import opened Storage
  import opened Scoring

  /** One entry of a unit's word list. */
  datatype Word = Word(id: string, ru: string, ko: string, exampleRu: string)

  /** What the test area shows. */
  datatype Screen =
    | NoWords
    | Asking(word: Word)
    | Finished(percent: int, correct: nat, wrong: nat, total: nat)

  // ===== Multiple choice =====

  /** The answer a choice question expects: the meaning (`ko`), or the
      Russian word in the reversed (`matching`) mode. */
  function Label(w: Word, reverse: bool): string {
    if reverse then w.ru else w.ko
  }

  /** The other words of the unit, those whose id differs from `id`, in
      order (`words.filter(w => w.id !== word.id)`). */
  function Others(words: seq<Word>, id: string): (r: seq<Word>)
    ensures |r| <= |words|
    ensures forall w :: w in r ==> w in words && w.id != id
    ensures forall w :: w in words && w.id != id ==> w in r
  {
    if words == [] then []
    else if words[0].id != id then [words[0]] + Others(words[1..], id)
    else Others(words[1..], id)
  }

  function Min(a: int, b: int): int {
    if a <= b then a else b
  }

  /** The options before the final shuffle: the labels of the first three
      words of the shuffled distractor pool, then the correct label. */
  function ChoiceOptions(pool: seq<Word>, word: Word, reverse: bool): (opts: seq<string>)
    ensures 1 <= |opts| <= 4
    ensures Label(word, reverse) in opts
  {
    var distractors := pool[..Min(3, |pool|)];
    seq(|distractors|, i requires 0 <= i < |distractors| => Label(distractors[i], reverse))
    + [Label(word, reverse)]
  }

  /** With the pool a shuffle of the other words, the options hold the
      correct answer, four options once the unit has three other words, and
      every other option is the label of a different word of the unit. */
  lemma ChoiceOptionsSound(words: seq<Word>, word: Word, pool: seq<Word>, reverse: bool)
    requires multiset(pool) == multiset(Others(words, word.id))
    ensures var opts := ChoiceOptions(pool, word, reverse);
            && opts[|opts| - 1] == Label(word, reverse)
            && (|Others(words, word.id)| >= 3 ==> |opts| == 4)
            && |opts| == Min(3, |Others(words, word.id)|) + 1
            && forall i :: 0 <= i < |opts| - 1 ==>
                 exists w :: w in words && w.id != word.id && opts[i] == Label(w, reverse)
  {
    var opts := ChoiceOptions(pool, word, reverse);
    assert |pool| == |Others(words, word.id)| by {
      assert |multiset(pool)| == |multiset(Others(words, word.id))|;
    }
    forall i | 0 <= i < |opts| - 1
      ensures exists w :: w in words && w.id != word.id && opts[i] == Label(w, reverse)
    {
      var w := pool[i];
      assert w in multiset(pool);
      assert w in Others(words, word.id);
      assert opts[i] == Label(w, reverse);
    }
  }

  /** A clicked option is right when its text is the correct answer. */
  predicate ChoiceCorrect(chosen: string, word: Word, reverse: bool) {
    chosen == Label(word, reverse)
  }

  // ===== Typed answers =====

  /** The typed modes accept an answer whose trimmed, lower-cased form is
      the lower-cased Russian word. */
  predicate TypedCorrect(input: string, word: Word) {
    Lower(Trim(input)) == Lower(word.ru)
  }

  /** Surrounding white space and a different use of capitals do not make
      a typed answer wrong, and neither does any other spelling that
      lower-cases to the word. */
  lemma TypedIgnoresPaddingAndCase(before: string, typed: string, after: string, word: Word)
    requires AllSpace(before) && AllSpace(after) && IsTrimmed(typed)
    ensures TypedCorrect(before + typed + after, word) <==> Lower(typed) == Lower(word.ru)
  {
    TrimPadded(before, typed, after);
    TrimOfTrimmed(typed);
  }

  /** Conversely, every accepted answer is the word, up to case, with
      white space around it. */
  lemma AcceptedIsPaddedWord(input: string, word: Word)
    requires TypedCorrect(input, word)
    ensures exists before, typed, after ::
              && input == before + typed + after
              && AllSpace(before) && AllSpace(after) && IsTrimmed(typed)
              && Lower(typed) == Lower(word.ru)
  {
    var before, after := TrimDecompose(input);
    var typed := Trim(input);
    assert input == before + typed + after;
  }

  /** `pat` occurs in `s` at `j`. */
  predicate OccursAt(s: string, pat: string, j: nat) {
    j + |pat| <= |s| && s[j..j + |pat|] == pat
  }

  /** The first index at or after `from` where `pat` occurs in `s`. */
  function FindSub(s: string, pat: string, from: nat): (r: Option<nat>)
    requires from <= |s|
    ensures r.Some? ==> from <= r.value && OccursAt(s, pat, r.value)
    ensures forall j :: from <= j && (r.None? || j < r.value) ==> !OccursAt(s, pat, j)
    decreases |s| - from
  {
    if from + |pat| > |s| then None
    else if OccursAt(s, pat, from) then Some(from)
    else FindSub(s, pat, from + 1)
  }

  const BLANK := "______"

  /** The example sentence of the fill-in question, with the first
      occurrence of the word replaced by a blank (`String.replace` with a
      string pattern); unchanged when the word does not occur. */
  function BlankOut(example: string, ru: string): (r: string)
    ensures FindSub(example, ru, 0).None? ==> r == example
    ensures FindSub(example, ru, 0).Some? ==>
              var i := FindSub(example, ru, 0).value;
              && i + |ru| <= |example|
              && |r| == |example| - |ru| + |BLANK|
              && r[..i] == example[..i]
              && r[i..i + |BLANK|] == BLANK
              && r[i + |BLANK|..] == example[i + |ru|..]
  {
    match FindSub(example, ru, 0)
    case None => example
    case Some(i) =>
      var r := example[..i] + BLANK + example[i + |ru|..];
      assert r[..i] == example[..i];
      assert r[i..i + |BLANK|] == BLANK;
      assert r[i + |BLANK|..] == example[i + |ru|..];
      r
  }

  /** The blanked sentence of a sentence that holds the word once: the
      word is gone and the text around it is intact. */
  lemma BlankOutExample(pre: string, ru: string, post: string)
    requires FindSub(pre + ru + post, ru, 0) == Some(|pre|)
    ensures BlankOut(pre + ru + post, ru) == pre + BLANK + post
  {
    var s := pre + ru + post;
    assert s[..|pre|] == pre;
    assert s[|pre| + |ru|..] == post;
  }

  /** Seconds of study credited per answered word. */
  const SECONDS_PER_WORD := 15

  /** The `Vocabulary` object. */
  class VocabularyTest {
    var words: seq<Word>
    var testWords: seq<Word>
    var currentIndex: nat
    var correct: nat
    var wrong: nat
    var isActive: bool

    /** Every answer moves the test on by one question. */
    ghost predicate Valid()
      reads this
    {
      currentIndex == correct + wrong
    }

    constructor ()
      ensures Valid()
      ensures words == [] && testWords == [] && currentIndex == 0 && !isActive
    {
      words := [];
      testWords := [];
      currentIndex := 0;
      correct := 0;
      wrong := 0;
      isActive := false;
    }

    /** `startTest()`. `load` is the unit's word list, `None` when it could
        not be fetched; `shuffled` is the order the random sort produced. */
    method StartTest(load: Option<seq<Word>>, shuffled: seq<Word>) returns (screen: Screen)
      requires Valid()
      requires load.Some? ==> multiset(shuffled) == multiset(load.value)
      modifies this
      ensures Valid()
      ensures load.None? ==> screen == NoWords && unchanged(this)
      ensures load == Some([]) ==>
                screen == NoWords && words == [] && testWords == old(testWords)
                && currentIndex == old(currentIndex) && correct == old(correct)
                && wrong == old(wrong) && isActive == old(isActive)
      ensures load.Some? && load.value != [] ==>
                && words == load.value && testWords == shuffled
                && multiset(testWords) == multiset(words)
                && currentIndex == 0 && correct == 0 && wrong == 0 && isActive
                && screen == Asking(testWords[0])
    {
      if load.None? {
        return NoWords;
      }
      words := load.value;
      if |words| == 0 {
        return NoWords;
      }
      assert |shuffled| == |words| by {
        assert |multiset(shuffled)| == |multiset(words)|;
      }
      testWords := shuffled;
      currentIndex := 0;
      correct := 0;
      wrong := 0;
      isActive := true;
      // `showQuestion()` on a non-empty list asks its first word
      screen := Asking(testWords[0]);
    }

    /** `showQuestion()`: the current word, or the results once every word
        has been asked. */
    method ShowQuestion(store: Store, today: Day) returns (screen: Screen)
      requires Valid()
      modifies this, store
      ensures Valid()
      ensures words == old(words) && testWords == old(testWords)
      ensures currentIndex == old(currentIndex) && correct == old(correct) && wrong == old(wrong)
      ensures store.GetVocabProgress() == old(store.GetVocabProgress())
      ensures old(currentIndex) < |testWords| ==>
                screen == Asking(testWords[currentIndex]) && isActive == old(isActive)
                && store.data == old(store.data)
      ensures old(currentIndex) >= |testWords| ==>
                && screen == Finished(Percent(correct, correct + wrong), correct, wrong, correct + wrong)
                && !isActive
                && store.GetVocabProgress() == old(store.GetVocabProgress())
                && store.GetStats() == StudyDay(old(store.GetStats()), RoundDiv((correct + wrong) * SECONDS_PER_WORD, 60), today)
                                        .(wordsMastered := MasteredCount(old(store.GetVocabProgress())))
                && store.data == old(store.data)[STATS := Parses(StatsValue(store.GetStats()))]
    {
      if currentIndex >= |testWords| {
        screen := ShowResults(store, today);
        return;
      }
      screen := Asking(testWords[currentIndex]);
    }

    /** `showResults()`: the score, the study time credited at fifteen
        seconds a word, and the number of mastered words. */
    method ShowResults(store: Store, today: Day) returns (screen: Screen)
      modifies this`isActive, store
      ensures !isActive
      ensures screen == Finished(Percent(correct, correct + wrong), correct, wrong, correct + wrong)
      ensures store.GetVocabProgress() == old(store.GetVocabProgress())
      ensures store.GetStats() == StudyDay(old(store.GetStats()), RoundDiv((correct + wrong) * SECONDS_PER_WORD, 60), today)
                                  .(wordsMastered := MasteredCount(old(store.GetVocabProgress())))
      ensures store.data == old(store.data)[STATS := Parses(StatsValue(store.GetStats()))]
    {
      isActive := false;
      var total := correct + wrong;
      var pct := Percent(correct, total);
      screen := Finished(pct, correct, wrong, total);
      ghost var before := store.GetVocabProgress();
      var studied := store.AddStudyTime(RoundDiv(total * SECONDS_PER_WORD, 60), today);
      var progress := store.GetVocabProgress();
      assert progress == before by {
        assert STATS != VOCAB_PROGRESS by { assert STATS[6] != VOCAB_PROGRESS[6]; }
        LookupAfterStore(old(store.data), STATS, StatsValue(studied), VOCAB_PROGRESS, ProgressValue(map[]));
      }
      var mastered := MasteredCount(progress);
      var _ := store.UpdateStats(NO_UPDATE.(wordsMastered := Some(mastered)));
    }

    /** An answer to the question about `word` (`handleAnswer` and the
        `checkAnswer` of the typed modes): the word's record, the score,
        then the next question. */
    method Answer(word: Word, isCorrect: bool, store: Store, now: int, today: Day) returns (screen: Screen)
      requires Valid()
      modifies this, store
      ensures Valid()
      ensures words == old(words) && testWords == old(testWords)
      ensures currentIndex == old(currentIndex) + 1
      ensures isCorrect ==> correct == old(correct) + 1 && wrong == old(wrong)
      ensures !isCorrect ==> wrong == old(wrong) + 1 && correct == old(correct)
      ensures store.GetVocabProgress() == ProgressAfter(old(store.GetVocabProgress()), word.id, isCorrect, now)
      ensures currentIndex < |testWords| ==>
                screen == Asking(testWords[currentIndex]) && isActive == old(isActive)
                && store.data == old(store.data)[VOCAB_PROGRESS := Parses(ProgressValue(store.GetVocabProgress()))]
      ensures currentIndex >= |testWords| ==>
                && screen == Finished(Percent(correct, correct + wrong), correct, wrong, correct + wrong) && !isActive
                && store.GetStats() == StudyDay(old(store.GetStats()), RoundDiv((correct + wrong) * SECONDS_PER_WORD, 60), today)
                                        .(wordsMastered := MasteredCount(store.GetVocabProgress()))
                && store.data == old(store.data)[VOCAB_PROGRESS := Parses(ProgressValue(store.GetVocabProgress()))]
                                                [STATS := Parses(StatsValue(store.GetStats()))]
      ensures old(currentIndex) + 1 == |testWords| ==>
                screen == Finished(Percent(correct, |testWords|), correct, wrong, |testWords|)
    {
      Record(word, isCorrect, store, now);
      screen := ShowQuestion(store, today);
    }

    /** The part every answer handler shares: the word's record is
        updated, the score gains one answer and the index moves on; the
        statistics are untouched. */
    method Record(word: Word, isCorrect: bool, store: Store, now: int)
      requires Valid()
      modifies this`correct, this`wrong, this`currentIndex, store
      ensures Valid()
      ensures currentIndex == old(currentIndex) + 1
      ensures isCorrect ==> correct == old(correct) + 1 && wrong == old(wrong)
      ensures !isCorrect ==> wrong == old(wrong) + 1 && correct == old(correct)
      ensures store.GetVocabProgress() == ProgressAfter(old(store.GetVocabProgress()), word.id, isCorrect, now)
      ensures store.GetStats() == old(store.GetStats())
      ensures store.data == old(store.data)[VOCAB_PROGRESS := Parses(ProgressValue(store.GetVocabProgress()))]
    {
      ghost var stats := store.GetStats();
      var _ := store.UpdateWordProgress(word.id, isCorrect, now);
      assert store.GetStats() == stats by {
        assert STATS != VOCAB_PROGRESS by { assert STATS[6] != VOCAB_PROGRESS[6]; }
        LookupAfterStore(old(store.data), VOCAB_PROGRESS, ProgressValue(store.GetVocabProgress()), STATS, StatsValue(DEFAULT_STATS));
      }
      if isCorrect {
        correct := correct + 1;
      } else {
        wrong := wrong + 1;
      }
      currentIndex := currentIndex + 1;
    }
  }
}
