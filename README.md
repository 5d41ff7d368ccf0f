# A verified model of the TORFL study app's core

The app is a browser-only study aid for the Russian TORFL exam. The model
covers its core:

- **Storage**: the `localStorage` store of API keys, model settings, daily
  statistics (streak, minutes, conversations) and per-word progress.
- **Api**: the chat wrapper, which routes a model name to OpenAI or Gemini
  and translates the message list into Gemini's format; speech-to-text;
  text-to-speech; and the key tests.
- **Conversation**: a voice conversation with an AI tutor. This covers
  parsing the tutor's `[RESPONSE]`/`[FEEDBACK]` reply, the per-turn history
  and the end-of-conversation evaluation.
- **Vocabulary**: the vocabulary test, with multiple-choice, fill-in-the-blank
  and typed answers, and word mastery.
- **Quiz**: the reading quiz and its AI explanation of the wrong answers.
- **Study**: the flashcard page.
- **Settings**: key saving and testing, the chat-model menu, and the data reset.

## How the model is built

Each source file becomes one Dafny module. Two helper modules sit beside
them: `Text` holds the string behaviour of JavaScript the code relies on
(`trim()`, `toLowerCase()`, `Math.round`), and `Scoring` holds the
percentage shown on the result screens. Objects whose fields the source
updates in place become classes:

- `Storage.Store`
- `Conversation.Session` and `Conversation.Recorder`
- `Vocabulary.VocabularyTest`
- `Quiz.QuizSession`
- `Study.Flashcards`

Each method of these classes is proved against a pure function that states
the operation. For example:

- `Session.ProcessVoiceInput` against `Conversation.Turn`;
- `Store.AddStudyTime` against `Storage.StudyDay`;
- `Store.UpdateWordProgress` against `Storage.ProgressAfter`.

The properties the app relies on are proved about those functions as lemmas.

The environment becomes parameters:

- **Network**: every vendor call takes the vendor's answer as a `Reply`
  parameter and returns the request it would send. For OpenAI or Gemini
  chat, this request is `None` when the key is missing. The chat call
  itself is a function parameter.
- **Clock**: `Date.now()` is a millisecond parameter `now`, and the calendar
  date is a day number `today`. "Yesterday" is `today - 1`.
- **Randomness**: the shuffles of the vocabulary test are an arbitrary
  permutation passed by the caller.
- **Unit and exam data**: the loaded unit and exam are an `Option` parameter.
  `None` stands for a failed load.

The store's read-only accessors are modelled as functions without
contracts of their own. Their behaviour is stated through the
contracts of the members listed below. These accessors are `get`,
`hasApiKey`, `hasOpenAIKey`, `getSelectedLLM`, `getSelectedTTS`,
`getSelectedTTSVoice`, `getStats` and `getVocabProgress`.

## Model

| member | source | states |
|---|---|---|
| `Text.Trim` | js/settings.js:27-28 | the result has no leading or trailing whitespace (JS whitespace set), is no longer than the input, and is empty exactly when the input is all whitespace |
| `Text.TrimDecompose` | js/conversation.js:94 | every string is whitespace, then its trimmed form, then whitespace |
| `Text.TrimUnique` | js/conversation.js:158-161 | a trimmed core padded only with whitespace is what `trim()` returns |
| `Text.TrimPadded` | js/conversation.js:158-161 | adding whitespace around a string does not change its trimmed form |
| `Text.TrimOfTrimmed` | js/settings.js:27-28 | trimming is idempotent on an already trimmed string |
| `Text.Lower` | js/vocabulary.js:146-147 | lower-casing keeps the length and maps every character independently |
| `Text.RoundDiv` | js/conversation.js:322 | `Math.round(n / d)`: the result is the integer nearest to n/d, with halves rounded up |
| `Scoring.Percent` | js/vocabulary.js:260 | 0 when nothing was answered; between 0 and 100; 100 when every answer is right; 0 when none is |
| `Scoring.PercentBounds` | js/quiz.js:110 | the rounded percentage of correct out of total lies in 0..100, with 100 for all correct and 0 for none |
| `Scoring.PercentMonotone` | js/quiz.js:110 | more correct answers never give a lower percentage |
| `Storage.LookupAfterStore` | js/storage.js:21-39 | after `set(key, v)`, `get(key)` returns v and every other key reads as before |
| `Storage.LookupAfterRemove` | js/storage.js:21-43 | after `remove(key)`, `get(key)` returns the default and every other key reads as before |
| `Storage.RouteModel` | js/storage.js:100-106 | a model goes to Google exactly when its name starts with "gemini", and to OpenAI otherwise |
| `Storage.RouteModelFamilies` | js/storage.js:100-106 | gpt and o-series models, and every non-gemini name, go to OpenAI |
| `Storage.FamiliesAreDisjoint` | js/storage.js:100-106 | no model name is both a gpt/o name and a gemini name |
| `Storage.Merge` | js/storage.js:120-125 | `Object.assign` on the stats: each updated field takes the new value, each other field keeps the stored one; an empty update changes nothing |
| `Storage.MergeTwice` | js/storage.js:120-125 | two updates in a row equal one combined update in which the later value wins |
| `Storage.StudyDay` | js/storage.js:128-150 | the study date becomes today; a second session on the same day adds its minutes and keeps the streak; a session the day after extends the streak by one; any other gap restarts the streak at 1 with today's minutes; no other field changes |
| `Storage.StreakCountsConsecutiveDays` | js/storage.js:128-150 | studying on n consecutive days after a break gives a streak of n, ending on the last of those days |
| `Storage.Answered` | js/storage.js:157-172 | an answer adds one to the correct or the wrong count, stamps the time, and a word is mastered exactly when it has at least three correct answers |
| `Storage.ProgressAfter` | js/storage.js:157-172 | the answered word gets a record (a fresh one the first time) and every other word's record is untouched |
| `Storage.MasteredCount` | js/vocabulary.js:279-281 | the number of mastered words never exceeds the number of words with a record |
| `Storage.MasteredCountNeverDrops` | js/storage.js:157-172 | answering never un-masters a word, so the mastered count never goes down, and well-formed records stay well-formed |
| `Storage.Store.constructor` | js/storage.js:6-19 | the store starts with the given saved entries |
| `Storage.Store.GetString` | js/storage.js:21-29 | a missing key reads as the fallback, a stored string reads as itself, and an unreadable or non-string entry reads as the fallback |
| `Storage.Store.GetApiKey` | js/storage.js:46-50 | the OpenAI and Google keys are read from their own entries, and any other provider has no key |
| `Storage.Store.HasRequiredKeys` | js/storage.js:67-72 | holds exactly when the selected chat model is a gpt model with an OpenAI key or a gemini model with a Google key |
| `Storage.Store.GetProviderForLLM` | js/storage.js:100-106 | an empty model name routes the selected model; any other name routes itself |
| `Storage.Store.Set` | js/storage.js:31-39 | the key now holds the value and nothing else changes |
| `Storage.Store.Remove` | js/storage.js:41-43 | the key is gone and nothing else changes |
| `Storage.Store.SetApiKey` | js/storage.js:52-55 | the provider's entry holds the key, so `getApiKey` returns it; an unknown provider changes nothing |
| `Storage.Store.SetSelectedLLM` | js/storage.js:79-81 | the model setting holds the model and reads back as it |
| `Storage.Store.UpdateStats` | js/storage.js:120-125 | the stored stats become the merge of the old stats with the update, and the result is what is stored |
| `Storage.Store.AddStudyTime` | js/storage.js:128-150 | the stored stats become the study-day update of the old stats |
| `Storage.Store.UpdateWordProgress` | js/storage.js:157-172 | the stored progress becomes the old progress with this answer recorded, and the returned record is the word's new one |
| `Storage.Store.ExportAll` | js/storage.js:175-181 | the export holds exactly the app's keys, each with its parsed value, or nothing when absent or unreadable |
| `Storage.Store.ResetStudyData` | js/storage.js:183-187 | only the stats, progress and conversation-history entries are removed; keys and settings survive |
| `Storage.Store.ResetAll` | js/storage.js:189-193 | every entry of the app is removed and nothing else |
| `Api.ContextOf` | js/api.js:10-11 | the call context holds an empty key exactly when the store has no key for that provider |
| `Api.Detail` | js/api.js:29 | the vendor's error message when it has a non-empty one, the unknown-error text otherwise |
| `Api.ErrorMessage` | js/api.js:27-30 | an HTTP error is reported with the service name, the status and the detail |
| `Api.Interpret` | js/api.js:27-33 | a 2xx answer with a payload succeeds with that payload; any other status fails with an HTTP error; an unreachable server fails as unreachable |
| `Api.ChatOpenAI` | js/api.js:9-34 | without a key nothing is sent and the call fails with a missing-key error; with one it sends the model, the messages and the key |
| `Api.GeminiContents` | js/api.js:45-54 | the Gemini contents are never longer than the messages |
| `Api.NonSystem` | js/api.js:45-54 | never longer than the messages, and holds only non-system messages taken from them |
| `Api.NonSystemAppend` | js/api.js:45-54 | filtering a concatenation filters each half and concatenates the results, so the loop keeps the messages in order |
| `Api.NonSystemKeepsTheRest` | js/api.js:45-54 | every non-system message of the input is kept |
| `Api.NonSystemOfPlainList` | js/api.js:45-54 | a list without system messages is kept unchanged |
| `Api.LastSystemAt` | js/api.js:45-54 | the index of the last system message, and no system message follows it |
| `Api.SystemInstruction` | js/api.js:45-68 | the content of the last system message, sent exactly when it is non-empty: a later empty system message clears an earlier non-empty one, and any instruction sent is the content of a system message that no other system message follows |
| `Api.GeminiRoundTrip` | js/api.js:45-54 | translating to Gemini's format and back gives the non-system messages unchanged |
| `Api.GeminiEntriesAt` | js/api.js:45-54 | the i-th Gemini entry is the i-th non-system message, with the model role exactly for assistant messages |
| `Api.LengthsAgree` | js/api.js:45-54 | one Gemini entry per non-system message |
| `Api.TranslateForGemini` | js/api.js:41-68 | the loop produces the Gemini contents and, as the instruction, the last system message, attached only when non-empty |
| `Api.ChatGemini` | js/api.js:37-85 | without a key nothing is sent and the call fails with a missing-key error; with one it sends the contents, the instruction and the key |
| `Api.Chat` | js/api.js:88-99 | the override model, or the selected one when there is none, is sent to the provider it routes to |
| `Api.ChatRoutingExamples` | js/api.js:88-99 | a gemini model goes to Gemini and a gpt model to OpenAI |
| `Api.Transcribe` | js/api.js:102-126 | without an OpenAI key nothing is sent and the call fails with a missing-key error; otherwise Russian speech is sent to the transcription model; a 2xx answer returns the vendor's text, any other status fails with an STT error carrying the status and the vendor's message, and an unreachable server fails as unreachable |
| `Api.Speak` | js/api.js:129-157 | without an OpenAI key nothing is sent; otherwise the text, voice and model are sent, and the call succeeds exactly on a 2xx answer |
| `Api.KeyTestStatus` | js/api.js:160-195 | a key test reports success exactly on a 2xx answer |
| `Api.TestOpenAIKey` | js/api.js:160-177 | no key: no request and a no-key status; otherwise the model list is requested, and the key is valid exactly on a 2xx answer |
| `Api.TestGoogleKey` | js/api.js:179-195 | no key: no request and a no-key status; otherwise the model list is requested, and the key is valid exactly on a 2xx answer |
| `Conversation.FindMarker` | js/conversation.js:154-155 | the first position from the start point where the marker occurs, ignoring ASCII case, or none if it never does |
| `Conversation.ResponsePart` | js/conversation.js:149-166 | without `[RESPONSE]` the whole reply; otherwise the trimmed text from just after the first `[RESPONSE]` up to the first `[FEEDBACK]` after it, or to the end; it never contains the feedback marker |
| `Conversation.UpToFeedback` | js/conversation.js:154-158 | the trimmed text up to the next `[FEEDBACK]` never contains one |
| `Conversation.FeedbackPart` | js/conversation.js:151-162 | empty without `[FEEDBACK]`; otherwise the trimmed text after the first `[FEEDBACK]` up to the end |
| `Conversation.ParseCompose` | js/conversation.js:13-28 | a reply written in the prompt's layout, with markers in any case, parses back to exactly its response and feedback |
| `Conversation.ResponseHasNoFeedback` | js/conversation.js:154 | the response stops before the first `[FEEDBACK]`, so it never contains one |
| `Conversation.ScenarioDescription` | js/conversation.js:269-277 | a known scenario's description, or the default one for an unknown id; never empty |
| `Conversation.SystemPrompt` | js/conversation.js:108-117 | the first turn's system message starts with the session's prompt, is exactly that prompt for the "free" scenario, and otherwise continues with the scenario line |
| `Conversation.OutgoingWellFormed` | js/conversation.js:108-119 | adding the user message keeps the single system message at index 0 |
| `Conversation.Turn` | js/conversation.js:82-146 | history is only ever appended to; a failed or empty transcription leaves it unchanged; the system prompt stays the only system message, at index 0 |
| `Conversation.Answered` | js/conversation.js:121-137 | a reply is appended raw, as an assistant message, after the messages that were sent, and the turn is reported as answered |
| `Conversation.TurnRecordsExchange` | js/conversation.js:108-122 | the transcript is sent as the last user message, after the system prompt on the first turn; a failed chat keeps it without a reply; a reply is stored raw |
| `Conversation.FeedbackNeverSpoken` | js/conversation.js:125-137 | only the parsed response is spoken, and only when it is non-empty |
| `Conversation.TurnGrowth` | js/conversation.js:108-122 | a completed turn adds three messages to an empty history and two to any other; a failed chat adds one fewer |
| `Conversation.FirstTurn` | js/conversation.js:108-122 | the first turn's history is the system prompt, the transcript and the raw reply |
| `Conversation.Recorder.constructor` | js/audio.js:13-51 | a new recorder is not recording |
| `Conversation.Recorder.Start` | js/audio.js:13-51 | recording starts exactly when the microphone is granted |
| `Conversation.Recorder.Stop` | js/audio.js:54-70 | recording stops; the captured audio is returned only if it was recording |
| `Conversation.Session.constructor` | js/conversation.js:6-28 | a new conversation holds the tutor prompt as its system prompt, has no history, is not processing and has no start time |
| `Conversation.Session.ProcessVoiceInput` | js/conversation.js:82-146 | while busy nothing changes; otherwise the outcome and the new history are those of `Turn` with the scenario's system prompt, the processing flag is cleared, and an unset start time is set to now |
| `Conversation.Session.ToggleRecording` | js/conversation.js:51-85 | ignored while processing; stops a running recording and processes non-empty audio, which sets an unset start time to now; otherwise starts recording only with an OpenAI key and a granted microphone; every outcome except a processed one leaves the history and the start time as they were |
| `Conversation.Session.ResetConversation` | js/conversation.js:280-290 | the history and the start time are cleared |
| `Conversation.Session.EndConversation` | js/conversation.js:293-336 | fewer than three messages: nothing happens; otherwise the history plus the evaluation request is sent, the history itself is not modified, and a successful evaluation records the elapsed rounded minutes and one more conversation in the stats, leaving every other stored entry as it was |
| `Vocabulary.Others` | js/vocabulary.js:86-88 | exactly the unit's words other than the asked one |
| `Vocabulary.ChoiceOptions` | js/vocabulary.js:86-91 | one to four options, the correct label among them |
| `Vocabulary.ChoiceOptionsSound` | js/vocabulary.js:86-91 | with the pool a shuffle of the other words: the correct label is last, there are four options once three other words exist, and every other option labels a different word |
| `Vocabulary.TypedIgnoresPaddingAndCase` | js/vocabulary.js:145-163 | a typed answer is accepted exactly when, after trimming, it equals the word up to case |
| `Vocabulary.AcceptedIsPaddedWord` | js/vocabulary.js:194-197 | an accepted typed answer is the word, up to case, with only whitespace before and after it |
| `Vocabulary.FindSub` | js/vocabulary.js:134 | the first occurrence of the word in the example at or after the start, or none |
| `Vocabulary.BlankOut` | js/vocabulary.js:134 | only the first occurrence of the word is replaced by the blank; without one the example is unchanged |
| `Vocabulary.BlankOutExample` | js/vocabulary.js:134 | a sentence whose first occurrence of the word is at a given place reads the same with a blank there |
| `Vocabulary.VocabularyTest.constructor` | js/vocabulary.js:6-11 | a new test has no words, no score and is inactive |
| `Vocabulary.VocabularyTest.StartTest` | js/vocabulary.js:34-52 | a failed load shows the no-words screen and changes nothing; an empty unit shows it too; otherwise the test asks a shuffle of all the unit's words from the first one with a zero score |
| `Vocabulary.VocabularyTest.ShowQuestion` | js/vocabulary.js:55-81 | asks the current word and changes nothing stored, or, once every word has been asked, shows the results, whose only stored change is the stats entry |
| `Vocabulary.VocabularyTest.ShowResults` | js/vocabulary.js:257-284 | the result screen shows the rounded percentage, the counts and the total; 15 seconds per word are recorded as study time, the stats' mastered-word count becomes the number of mastered words, and no other stored entry changes |
| `Vocabulary.VocabularyTest.Answer` | js/vocabulary.js:222-244 | the score gains one right or one wrong answer and the word's progress records it; then either the next word is asked, the test stays active and only the progress entry changed, or, after the last word, the results show the rounded percentage over every word asked, the stats hold the study day and the mastered count, and only the progress and stats entries changed |
| `Vocabulary.VocabularyTest.Record` | js/vocabulary.js:236-241 | the word's progress records the answer, the matching counter and the index grow by one, and the stats and every other stored entry are untouched |
| `Quiz.CorrectCount` | js/quiz.js:108 | at most the number of answers, and equal to it exactly when every answer is right |
| `Quiz.CorrectCountAppend` | js/quiz.js:108 | logging an answer adds one to the count exactly when the answer is right |
| `Quiz.WrongAnswers` | js/quiz.js:145-146 | exactly the logged answers that are wrong |
| `Quiz.WrongAndCorrectPartition` | js/quiz.js:145-146 | wrong answers plus right answers make up all answers |
| `Quiz.WrongAnswersInOrder` | js/quiz.js:145-146 | wrong answers keep the order in which they were logged |
| `Quiz.Describe` | js/quiz.js:147-150 | exactly the question label, the question and the answer label, then the text of the student's option, then the right-answer label and the right option's text, with nothing else in between |
| `Quiz.Join` | js/quiz.js:151 | joining nothing is empty, one part is itself, and the result starts with the first part |
| `Quiz.JoinAppend` | js/quiz.js:151 | one more part adds a separator and that part at the end, so every later part follows its own separator |
| `Quiz.JoinLength` | js/quiz.js:151 | the joined text is as long as all the parts plus one separator between each two of them |
| `Quiz.Descriptions` | js/quiz.js:145-151 | one description per wrong answer, in order; it exists exactly when every wrong answer refers to a question of the exam |
| `Quiz.Explain` | js/quiz.js:134-174 | nothing is asked without the keys or when all answers are right; otherwise one system and one user message listing the wrong answers are sent, and the explanation or the error is what the chat returned |
| `Quiz.QuizSession.constructor` | js/quiz.js:6-10 | a new quiz has no questions, no answers and is inactive |
| `Quiz.QuizSession.StartQuiz` | js/quiz.js:32-44 | a failed or empty load shows the no-questions screen; otherwise the quiz starts at the first question with no answers |
| `Quiz.QuizSession.ShowQuestion` | js/quiz.js:47-75 | asks the current question, or shows the results once every question is answered |
| `Quiz.QuizSession.ShowResults` | js/quiz.js:106-131 | the result screen shows the rounded percentage of right answers, and 30 seconds per question are recorded as study time |
| `Quiz.QuizSession.HandleQuizAnswer` | js/quiz.js:78-103 | the answer is logged with the current question's index and the right count grows exactly on a right answer; the next question is asked, the quiz stays active and nothing stored changed, or, after the last question, the results show the rounded percentage over every question, the quiz ends, 30 seconds per question are recorded as the study day, and only the stats entry changed |
| `Quiz.LogRefersToQuestions` | js/quiz.js:145-151 | an answer log built by the quiz always refers to questions of the exam, so an explanation request can always be built |
| `Quiz.LoggedIndexInRange` | js/quiz.js:78-103 | every logged answer refers to a question answered before it |
| `Study.JsRem` | js/study.js:35 | JavaScript's `%`: on a non-negative dividend it is the ordinary remainder, within 0..divisor |
| `Study.NextIndex` | js/study.js:34-38 | the next card, wrapping from the last back to the first |
| `Study.PrevIndex` | js/study.js:40-44 | the previous card, wrapping from the first to the last |
| `Study.PrevUndoesNext` | js/study.js:34-44 | "prev" undoes "next" and "next" undoes "prev" |
| `Study.NextTimes` | js/study.js:34-38 | pressing "next" repeatedly stays within the deck |
| `Study.NextTimesFromStart` | js/study.js:34-38 | pressing "next" k times from the first card lands on card k mod n, so a full round returns to the first card |
| `Study.FaceOf` | js/study.js:52-86 | nothing for an empty deck; otherwise the Russian word on the front, and the meaning and example on the back |
| `Study.Flashcards.constructor` | js/study.js:17-18 | the page opens on the first card, front up |
| `Study.Flashcards.Next` | js/study.js:34-38 | moves to the next card with the front up |
| `Study.Flashcards.Prev` | js/study.js:40-44 | moves to the previous card with the front up |
| `Study.Flashcards.Flip` | js/study.js:46-49 | the same card, the other face up |
| `Study.FlipShowsOtherFace` | js/study.js:81-84 | flipping always changes the face shown |
| `Settings.OfferedModels` | js/settings.js:91-128 | three GPT models when the OpenAI key is set, three Gemini models when the Google key is set, GPT first; none without keys |
| `Settings.OfferedModelsAreUsable` | js/settings.js:91-128 | every offered model routes to a provider whose key is set, and every GPT entry comes before every Gemini entry |
| `Settings.SyncConvLLMSelect` | js/settings.js:91-128 | the placeholder alone when no key is set; otherwise one menu entry per offered model, selected exactly when it is the stored model |
| `Settings.MenuOf` | js/settings.js:115-121 | one menu entry per model, in order, with its value and label, selected exactly when it is the current model |
| `Settings.SaveKeys` | js/settings.js:26-35 | both keys are stored trimmed, empty ones included; a key counts as set exactly when its input was not all whitespace |
| `Settings.TestKeys` | js/settings.js:38-68 | the keys are saved trimmed and nothing else stored changes; a provider whose input was blank shows "not entered" and sends nothing; otherwise its model list is requested and its line shows the test's status |
| `Settings.ResetData` | js/settings.js:162-168 | only on confirmation is the study record removed; the API keys are kept either way |

## Left out

- The DOM rendering, `formatFeedback`, progress bars, audio playback and the `MediaRecorder` details are not modelled. The recorder is reduced to its recording flag and the size of the captured audio.
- Network calls are not executed. Every vendor answer is a parameter, either a `Reply` or a function from the sent messages to a result. The JSON bodies are reduced to the fields the app reads.
- `Api.Interpret`: a 2xx chat reply without its text (`message.content` or `parts[0].text` null or absent) fails as a malformed reply. The JavaScript returns `null`/`undefined` from `chat`, pushes it into the history as the assistant message and only then fails while parsing it. So after such a reply the model's history lacks that assistant entry, which can change the three-message gate of `endConversation`.
- Concurrency and the interleaving of `await`s are not modelled. Each async operation is one atomic step. `endConversation` does not check `isProcessing`, and a reset during an in-flight chat call is not represented.
- The `setTimeout` delays between an answer and the next question are collapsed into the answer step.
- `Storage.Store.GetString`: a stored value of the wrong JSON shape reads as absent. The JavaScript returns it as-is. The same holds for `Storage.Store.GetStats` and `Storage.Store.GetVocabProgress`, which read a stats or progress entry of the wrong shape as the default (`getStats` and `getVocabProgress` return the parsed value as it is). Quota failures of `localStorage.setItem` are not modelled.
- `Storage.StudyDay`: dates are whole day numbers, not the UTC date strings that `toISOString().split('T')[0]` gives. "Yesterday" is `today - 1`. So a study day is assumed to start at UTC midnight, and the effect of the local-time `setDate(getDate() - 1)` before the UTC conversion (around daylight-saving changes) is not modelled.
- `Scoring.Percent`: the percentage is the exact rounding of `100 * correct / total`. The source rounds a floating-point product. For example, 29 out of 200 gives 14 in the browser and 15 here.
- `Text.Lower`: only the Basic Latin capitals A-Z and the Cyrillic capitals U+0400-U+042F (Ё included) are folded. Other case mappings of `toLowerCase` are not modelled.
- `Conversation.FindMarker`: the regular expressions' `/i` flag is modelled as ASCII-only case folding. This matches JavaScript without the `u` flag.
- `Conversation.ScenarioDescription`: scenario ids that name inherited object properties (such as `toString`) are treated as unknown.
- `Conversation.Session.ProcessVoiceInput`: a start time of `0` counts as set. In the JavaScript, `0` is falsy.
- `Conversation.Session.EndConversation`: a start time of `0` likewise counts as set, so the elapsed minutes are recorded where `if (this.startTime)` skips them.
- `Conversation.Session.ProcessVoiceInput`: a text-to-speech failure is swallowed by the source. Here the spoken text is only part of the outcome.
- `Vocabulary.ChoiceOptions`: the final shuffle of the four options is not modelled. The options are stated before it, and the correct one comes last.
- `Vocabulary.VocabularyTest.ShowQuestion`: an unknown question mode renders nothing and is not modelled. The three modes differ only in rendering and in how correctness is decided, and the three correctness checks are modelled separately.
- `Quiz.Explain` is a pure function over the questions and the answer log, not a method of the quiz object. It changes no state apart from the page.
- `Study.FaceOf`: the deck is the page's fixed two-card list. The empty-deck guard of `renderCard` appears only in `FaceOf`.
- The settings page's `init`, `saveModelSettings`, `previewVoice`, the `exportData` JSON download and the key-visibility toggle are not modelled. They only move values between the DOM and the store, or start a download.
- A comment in the word-progress code says a word is mastered after three correct answers in a row. The code counts cumulative correct answers, and the model follows the code.
