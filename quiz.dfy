/** The mock exam of js/quiz.js: a run through the questions of one exam
    file, an ordered log of the answers given, the score, and the request
    that asks the chat model to explain the wrong answers. */
module Quiz {
  import opened Results
  import opened Text
  import opened Storage
  import opened Api
  import opened Scoring

  /** One exam question: an optional reading passage, the question, its
      options and the index of the right option. */
  datatype Question = Question(passage: string, question: string, options: seq<string>, correctIndex: int)

  /** One entry of the answers log. */
  datatype AnswerRecord = AnswerRecord(questionIndex: nat, selected: int, correct: int, isCorrect: bool)

  /** What the exam area shows. */
  datatype Screen =
    | NoQuestions
    | Asking(index: nat, question: Question)
    | Finished(percent: int, correct: nat, total: nat)

  // ===== Counting =====

  /** The number of log entries marked correct
      (`answers.filter(a => a.isCorrect).length`). */
  function CorrectCount(answers: seq<AnswerRecord>): (n: nat)
    ensures n <= |answers|
    ensures n == |answers| <==> forall i :: 0 <= i < |answers| ==> answers[i].isCorrect
  {
    if answers == [] then 0
    else CorrectCount(answers[..|answers| - 1]) + (if answers[|answers| - 1].isCorrect then 1 else 0)
  }

  /** Logging one more answer adds one to the count exactly when it is
      right. */
  lemma CorrectCountAppend(answers: seq<AnswerRecord>, a: AnswerRecord)
    ensures CorrectCount(answers + [a]) == CorrectCount(answers) + (if a.isCorrect then 1 else 0)
  {
    assert (answers + [a])[..|answers|] == answers;
  }

  /** The wrong answers of the log, in the order they were given. */
  function WrongAnswers(answers: seq<AnswerRecord>): (w: seq<AnswerRecord>)
    ensures forall a :: a in w ==> a in answers && !a.isCorrect
    ensures forall a :: a in answers && !a.isCorrect ==> a in w
  {
    if answers == [] then []
    else WrongAnswers(answers[..|answers| - 1])
         + (if answers[|answers| - 1].isCorrect then [] else [answers[|answers| - 1]])
  }

  /** Every answer is either counted correct or listed as wrong. */
  lemma {:induction false} WrongAndCorrectPartition(answers: seq<AnswerRecord>)
    ensures |WrongAnswers(answers)| + CorrectCount(answers) == |answers|
  {
    if answers != [] {
      WrongAndCorrectPartition(answers[..|answers| - 1]);
    }
  }

  /** Wrong answers keep the order of the log: the later of two wrong
      answers comes later in the list. */
  lemma {:induction false} WrongAnswersInOrder(answers: seq<AnswerRecord>, i: nat, j: nat)
    requires i < j < |answers| && !answers[i].isCorrect && !answers[j].isCorrect
    ensures exists x, y :: 0 <= x < y < |WrongAnswers(answers)|
              && WrongAnswers(answers)[x] == answers[i] && WrongAnswers(answers)[y] == answers[j]
  {
    var last := |answers| - 1;
    var init := answers[..last];
    if j == last {
      assert answers[i] == init[i];
      var w := WrongAnswers(init);
      assert answers[i] in w;
      var x :| 0 <= x < |w| && w[x] == answers[i];
      assert WrongAnswers(answers) == w + [answers[j]];
      assert WrongAnswers(answers)[x] == answers[i] && WrongAnswers(answers)[|w|] == answers[j];
    } else {
      assert answers[i] == init[i] && answers[j] == init[j];
      WrongAnswersInOrder(init, i, j);
      var x, y :| 0 <= x < y < |WrongAnswers(init)|
                  && WrongAnswers(init)[x] == answers[i] && WrongAnswers(init)[y] == answers[j];
      var extra := if answers[last].isCorrect then [] else [answers[last]];
      assert WrongAnswers(answers) == WrongAnswers(init) + extra;
      assert WrongAnswers(answers)[x] == answers[i] && WrongAnswers(answers)[y] == answers[j];
    }
  }

  // ===== The explanation request =====

  const EXPLAIN_SYSTEM := "Ты — преподаватель РКИ. Объясни ошибки студента. Отвечай на корейском с примерами на русском."
  const EXPLAIN_REQUEST := "다음 틀린 문제들을 해설해줘. 왜 정답이 맞는지, 학생이 왜 틀렸을 수 있는지 설명해줘:\n\n"

  /** An option's text as a template literal writes it: `undefined` for an
      index outside the options. */
  function OptionText(q: Question, i: int): string {
    if 0 <= i < |q.options| then q.options[i] else "undefined"
  }

  /** The paragraph describing one wrong answer. */
  function Describe(q: Question, a: AnswerRecord): (d: string)
    ensures StartsWith(d, "문제: " + q.question + "\n학생 답: ")
    ensures var chosen := OptionText(q, a.selected);
            var head := |"문제: " + q.question + "\n학생 답: "|;
            head + |chosen| <= |d| && d[head..head + |chosen|] == chosen
    ensures var right := "\n정답: " + OptionText(q, a.correct);
            |right| <= |d| && d[|d| - |right|..] == right
    ensures |d| == |"문제: " + q.question + "\n학생 답: "| + |OptionText(q, a.selected)| + |"\n정답: " + OptionText(q, a.correct)|
  {
    var head := "문제: " + q.question + "\n학생 답: ";
    var chosen := OptionText(q, a.selected);
    var right := "\n정답: " + OptionText(q, a.correct);
    var d := head + chosen + right;
    assert d[..|head|] == head;
    assert d[|head|..|head| + |chosen|] == chosen;
    assert d[|d| - |right|..] == right;
    d
  }

  /** `parts.join(sep)`. */
  function Join(parts: seq<string>, sep: string): (s: string)
    ensures parts == [] ==> s == ""
    ensures |parts| == 1 ==> s == parts[0]
    ensures parts != [] ==> StartsWith(s, parts[0])
  {
    if parts == [] then ""
    else if |parts| == 1 then parts[0]
    else
      var rest := sep + Join(parts[1..], sep);
      assert (parts[0] + rest)[..|parts[0]|] == parts[0];
      parts[0] + rest
  }

  /** The summed lengths of the parts. */
  function TotalLength(parts: seq<string>): nat {
    if parts == [] then 0 else |parts[0]| + TotalLength(parts[1..])
  }

  /** Joining one more part appends the separator and that part, so the
      joined text is the parts in order with one separator between each
      neighbouring pair. */
  lemma {:induction false} JoinAppend(parts: seq<string>, p: string, sep: string)
    requires parts != []
    ensures Join(parts + [p], sep) == Join(parts, sep) + sep + p
    decreases |parts|
  {
    if |parts| > 1 {
      assert (parts + [p])[1..] == parts[1..] + [p];
      JoinAppend(parts[1..], p, sep);
    } else {
      assert (parts + [p])[1..] == [p];
    }
  }

  /** The joined text is as long as the parts together plus one separator
      between each neighbouring pair. */
  lemma {:induction false} JoinLength(parts: seq<string>, sep: string)
    requires parts != []
    ensures |Join(parts, sep)| == TotalLength(parts) + (|parts| - 1) * |sep|
    decreases |parts|
  {
    if |parts| > 1 {
      JoinLength(parts[1..], sep);
    }
  }

  /** Every entry names a question of the exam. */
  predicate RefersToQuestions(questions: seq<Question>, entries: seq<AnswerRecord>) {
    forall k :: 0 <= k < |entries| ==> entries[k].questionIndex < |questions|
  }

  /** The descriptions of the wrong answers, in order; `None` when one of
      them refers to a question the exam does not hold (reading a field of
      `undefined` throws). */
  function Descriptions(questions: seq<Question>, wrong: seq<AnswerRecord>): (r: Option<seq<string>>)
    ensures r.Some? ==> |r.value| == |wrong|
    ensures r.Some? ==> forall k :: 0 <= k < |wrong| ==>
              wrong[k].questionIndex < |questions|
              && r.value[k] == Describe(questions[wrong[k].questionIndex], wrong[k])
    ensures r.Some? <==> RefersToQuestions(questions, wrong)
  {
    if wrong == [] then Some([])
    else
      var rest := Descriptions(questions, wrong[1..]);
      if wrong[0].questionIndex >= |questions| then None
      else if rest.None? then
        assert !RefersToQuestions(questions, wrong) by {
          var k :| 0 <= k < |wrong[1..]| && wrong[1..][k].questionIndex >= |questions|;
          assert wrong[k + 1].questionIndex >= |questions|;
        }
        None
      else
        Some([Describe(questions[wrong[0].questionIndex], wrong[0])] + rest.value)
  }

  /** How a press of the explanation button ends. */
  datatype Explanation =
    | NeedKeys
    | AllCorrect
    | Explained(sent: seq<Message>, text: string)
    | Unexplained(sent: seq<Message>, error: ApiError)
    | BrokenLog

  /** `getAIExplanation()`, with `chat` standing for `API.chat`. */
  function Explain(hasKeys: bool, questions: seq<Question>, answers: seq<AnswerRecord>,
                   chat: seq<Message> -> Result<string, ApiError>): (e: Explanation)
    // nothing is asked without the keys
    ensures e == NeedKeys <==> !hasKeys
    // no chat call when every answer was right
    ensures hasKeys && WrongAnswers(answers) == [] ==> e == AllCorrect
    ensures e == AllCorrect ==> WrongAnswers(answers) == []
    // the request is one system message and one user message listing the wrong answers
    ensures e.BrokenLog? ==> hasKeys && Descriptions(questions, WrongAnswers(answers)).None?
    ensures e.Explained? || e.Unexplained? ==>
              && Descriptions(questions, WrongAnswers(answers)).Some?
              && WrongAnswers(answers) != []
              && e.sent == [Message(System, EXPLAIN_SYSTEM),
                          Message(User, EXPLAIN_REQUEST + Join(Descriptions(questions, WrongAnswers(answers)).value, "\n\n"))]
    ensures e.Explained? ==> chat(e.sent) == Success(e.text)
    ensures e.Unexplained? ==> chat(e.sent) == Failure(e.error)
  {
    if !hasKeys then NeedKeys
    else
      var wrong := WrongAnswers(answers);
      match Descriptions(questions, wrong)
      case None => BrokenLog
      case Some(parts) =>
        var wrongOnes := Join(parts, "\n\n");
        if wrongOnes == "" then
          AllCorrect
        else
          var sent := [Message(System, EXPLAIN_SYSTEM), Message(User, EXPLAIN_REQUEST + wrongOnes)];
          match chat(sent)
          case Success(text) => Explained(sent, text)
          case Failure(err) => Unexplained(sent, err)
  }

  /** Seconds of study credited per answered question. */
  const SECONDS_PER_QUESTION := 30

  /** The `Quiz` object. */
  class QuizSession {
    var questions: seq<Question>
    var currentIndex: nat
    var answers: seq<AnswerRecord>
    var isActive: bool

    /** The log holds one entry per question asked so far, each recording
        its own position. */
    ghost predicate Valid()
      reads this
    {
      |answers| == currentIndex
      && forall i :: 0 <= i < |answers| ==> answers[i].questionIndex == i
    }

    constructor ()
      ensures Valid()
      ensures questions == [] && answers == [] && currentIndex == 0 && !isActive
    {
      questions := [];
      currentIndex := 0;
      answers := [];
      isActive := false;
    }

    /** `startQuiz()`; `load` is the exam's question list, `None` when it
        could not be fetched. */
    method StartQuiz(load: Option<seq<Question>>) returns (screen: Screen)
      requires Valid()
      modifies this
      ensures Valid()
      ensures load.None? ==> screen == NoQuestions && unchanged(this)
      ensures load == Some([]) ==>
                screen == NoQuestions && questions == []
                && answers == old(answers) && currentIndex == old(currentIndex) && isActive == old(isActive)
      ensures load.Some? && load.value != [] ==>
                questions == load.value && currentIndex == 0 && answers == [] && isActive
                && screen == Asking(0, questions[0])
    {
      if load.None? {
        return NoQuestions;
      }
      questions := load.value;
      if |questions| == 0 {
        return NoQuestions;
      }
      currentIndex := 0;
      answers := [];
      isActive := true;
      // `showQuestion()` on a non-empty exam asks its first question
      screen := Asking(0, questions[0]);
    }

    /** `showQuestion()`: the current question, or the results once every
        question has been answered. */
    method ShowQuestion(store: Store, today: Day) returns (screen: Screen)
      requires Valid()
      modifies this`isActive, store
      ensures Valid()
      ensures currentIndex < |questions| ==>
                screen == Asking(currentIndex, questions[currentIndex])
                && isActive == old(isActive) && store.data == old(store.data)
      ensures currentIndex >= |questions| ==>
                && screen == Finished(Percent(CorrectCount(answers), |answers|), CorrectCount(answers), |answers|)
                && !isActive
                && store.data == old(store.data)[STATS := Parses(StatsValue(store.GetStats()))]
                && store.GetStats() == StudyDay(old(store.GetStats()), RoundDiv(|answers| * SECONDS_PER_QUESTION, 60), today)
    {
      if currentIndex >= |questions| {
        screen := ShowResults(store, today);
        return;
      }
      screen := Asking(currentIndex, questions[currentIndex]);
    }

    /** `showResults()`: the count of right answers, the percentage, and
        the study time credited at thirty seconds a question. */
    method ShowResults(store: Store, today: Day) returns (screen: Screen)
      modifies this`isActive, store
      ensures !isActive
      ensures screen == Finished(Percent(CorrectCount(answers), |answers|), CorrectCount(answers), |answers|)
      ensures store.data == old(store.data)[STATS := Parses(StatsValue(store.GetStats()))]
      ensures store.GetStats() == StudyDay(old(store.GetStats()), RoundDiv(|answers| * SECONDS_PER_QUESTION, 60), today)
    {
      isActive := false;
      var correct := CorrectCount(answers);
      var total := |answers|;
      screen := Finished(Percent(correct, total), correct, total);
      var _ := store.AddStudyTime(RoundDiv(total * SECONDS_PER_QUESTION, 60), today);
    }

    /** `handleQuizAnswer(btn, selectedIndex, question)` followed by the
        move to the next question. */
    method HandleQuizAnswer(selected: int, question: Question, store: Store, today: Day) returns (screen: Screen)
      requires Valid()
      modifies this, store
      ensures Valid()
      ensures questions == old(questions)
      ensures answers == old(answers) + [AnswerRecord(old(currentIndex), selected, question.correctIndex,
                                                      selected == question.correctIndex)]
      ensures currentIndex == old(currentIndex) + 1
      ensures CorrectCount(answers) == CorrectCount(old(answers)) + (if selected == question.correctIndex then 1 else 0)
      ensures currentIndex < |questions| ==>
                screen == Asking(currentIndex, questions[currentIndex]) && isActive == old(isActive)
                && store.data == old(store.data)
      ensures currentIndex >= |questions| ==>
                && screen == Finished(Percent(CorrectCount(answers), |answers|), CorrectCount(answers), |answers|)
                && screen.total == currentIndex && !isActive
                && store.data == old(store.data)[STATS := Parses(StatsValue(store.GetStats()))]
                && store.GetStats() == StudyDay(old(store.GetStats()), RoundDiv(|answers| * SECONDS_PER_QUESTION, 60), today)
    {
      var isCorrect := selected == question.correctIndex;
      var record := AnswerRecord(currentIndex, selected, question.correctIndex, isCorrect);
      CorrectCountAppend(answers, record);
      answers := answers + [record];
      currentIndex := currentIndex + 1;
      screen := ShowQuestion(store, today);
    }
  }

  /** In a log kept by the session, every wrong answer refers to a
      question of the exam once no more answers than questions were given,
      so the explanation request can always be built. */
  lemma LogRefersToQuestions(questions: seq<Question>, answers: seq<AnswerRecord>)
    requires |answers| <= |questions|
    requires forall i :: 0 <= i < |answers| ==> answers[i].questionIndex == i
    ensures Descriptions(questions, WrongAnswers(answers)).Some?
  {
    var wrong := WrongAnswers(answers);
    forall k | 0 <= k < |wrong| ensures wrong[k].questionIndex < |questions| {
      LoggedIndexInRange(answers, wrong[k]);
    }
    assert RefersToQuestions(questions, wrong);
  }

  lemma LoggedIndexInRange(answers: seq<AnswerRecord>, a: AnswerRecord)
    requires forall i :: 0 <= i < |answers| ==> answers[i].questionIndex == i
    requires a in answers
    ensures a.questionIndex < |answers|
  {
    var i :| 0 <= i < |answers| && answers[i] == a;
  }
}
