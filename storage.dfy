/** The persistent store of js/storage.js: the browser's `localStorage`,
    seen as a map from key to stored JSON text, and the readers and writers
    the application builds on it (API keys, model settings, learning
    statistics, per-word progress, export and reset). */
module Storage {
  import opened Results
  import opened Text

  // ===== Key names =====

  const API_OPENAI := "torfl_api_openai"
  const API_GOOGLE := "torfl_api_google"
  const SETTING_LLM := "torfl_setting_llm"
  const SETTING_TTS := "torfl_setting_tts"
  const SETTING_TTS_VOICE := "torfl_setting_tts_voice"
  const STATS := "torfl_stats"
  const VOCAB_PROGRESS := "torfl_vocab_progress"
  const CONV_HISTORY := "torfl_conv_history"
  const LAST_PAGE := "torfl_last_page"

  /** `Object.values(KEYS)`, in declaration order. */
  const KEYS: seq<string> :=
    [API_OPENAI, API_GOOGLE, SETTING_LLM, SETTING_TTS, SETTING_TTS_VOICE,
     STATS, VOCAB_PROGRESS, CONV_HISTORY, LAST_PAGE]

  /** The keys `resetStudyData` removes. */
  const STUDY_KEYS: set<string> := {STATS, VOCAB_PROGRESS, CONV_HISTORY}

  // ===== Stored values =====

  /** Calendar days are day numbers; timestamps are plain integers. */
  type Day = int

  /** The learning statistics record kept under `STATS`. */
  datatype Stats = Stats(
    streak: int,
    lastStudyDate: Option<Day>,
    todayMinutes: int,
    totalConversations: int,
    wordsMastered: int,
    quizScores: seq<int>)

  /** What `getStats` falls back to. */
  const DEFAULT_STATS := Stats(0, None, 0, 0, 0, [])

  /** A partial stats object as passed to `updateStats`: a field is `Some`
      exactly when the object has that property. */
  datatype StatsUpdate = StatsUpdate(
    streak: Option<int>,
    lastStudyDate: Option<Option<Day>>,
    todayMinutes: Option<int>,
    totalConversations: Option<int>,
    wordsMastered: Option<int>,
    quizScores: Option<seq<int>>)

  const NO_UPDATE := StatsUpdate(None, None, None, None, None, None)

  /** The record kept per word under `VOCAB_PROGRESS`. */
  datatype WordProgress = WordProgress(correct: int, wrong: int, lastSeen: Option<int>, mastered: bool)

  const FRESH_WORD := WordProgress(0, 0, None, false)

  /** A JSON value the application stores. `OtherJson` stands for any value
      of another shape (`null`, a number, an array, an unrelated object). */
  datatype Value =
    | Str(s: string)
    | StatsValue(stats: Stats)
    | ProgressValue(progress: map<string, WordProgress>)
    | OtherJson

  /** The text stored under a key: JSON that parses to a value, or text
      that `JSON.parse` rejects. */
  datatype Raw = Parses(value: Value) | Garbled

  /** `Storage.get(key, fallback)` on a given content of `localStorage`. */
  function Lookup(data: map<string, Raw>, key: string, fallback: Value): Value {
    if key in data && data[key].Parses? then data[key].value else fallback
  }

  /** What a `set` writes is what the next `get` reads, and no other key's
      reading changes. */
  lemma LookupAfterStore(data: map<string, Raw>, key: string, v: Value, other: string, fallback: Value)
    ensures Lookup(data[key := Parses(v)], key, fallback) == v
    ensures other != key ==> Lookup(data[key := Parses(v)], other, fallback) == Lookup(data, other, fallback)
  {
  }

  /** After `remove`, `get` yields the fallback for that key and the same
      value as before for every other key. */
  lemma LookupAfterRemove(data: map<string, Raw>, key: string, other: string, fallback: Value)
    ensures Lookup(data - {key}, key, fallback) == fallback
    ensures other != key ==> Lookup(data - {key}, other, fallback) == Lookup(data, other, fallback)
  {
  }

  // ===== Provider routing =====

  datatype Provider = OpenAI | Google

  /** The provider id strings the source passes around. */
  function ProviderName(p: Provider): string {
    match p
    case OpenAI => "openai"
    case Google => "google"
  }

  /** The routing of `getProviderForLLM` once the model id is known:
      `gemini…` goes to Google, every other id (the `gpt` and `o` families
      and any unrecognised id) to OpenAI. */
  function RouteModel(model: string): (p: Provider)
    ensures p == Google <==> StartsWith(model, "gemini")
  {
    if StartsWith(model, "gemini") then Google
    else if StartsWith(model, "gpt") || StartsWith(model, "o") then OpenAI
    else OpenAI
  }

  /** Ids of the `gpt` and `o` families, and ids no rule names, are all sent
      to OpenAI. */
  lemma RouteModelFamilies(model: string)
    ensures StartsWith(model, "gpt") ==> RouteModel(model) == OpenAI
    ensures StartsWith(model, "o") ==> RouteModel(model) == OpenAI
    ensures !StartsWith(model, "gemini") ==> RouteModel(model) == OpenAI
  {
    FamiliesAreDisjoint(model);
  }

  /** No model id starts with two of `gpt`, `o` and `gemini`. */
  lemma FamiliesAreDisjoint(model: string)
    ensures !(StartsWith(model, "gpt") && StartsWith(model, "gemini"))
    ensures !(StartsWith(model, "o") && StartsWith(model, "gemini"))
  {
    if StartsWith(model, "gemini") {
      assert model[0] == "gemini"[0] == 'g';
      assert model[1] == "gemini"[1] == 'e';
    }
  }

  // ===== Statistics arithmetic =====

  /** `Object.assign(stats, updates)`: each field present in `u` replaces
      the one in `s`; every absent field keeps its value. */
  function Merge(s: Stats, u: StatsUpdate): (r: Stats)
    ensures u == NO_UPDATE ==> r == s
    ensures u.streak.None? ==> r.streak == s.streak
    ensures u.lastStudyDate.None? ==> r.lastStudyDate == s.lastStudyDate
    ensures u.todayMinutes.None? ==> r.todayMinutes == s.todayMinutes
    ensures u.totalConversations.None? ==> r.totalConversations == s.totalConversations
    ensures u.wordsMastered.None? ==> r.wordsMastered == s.wordsMastered
    ensures u.quizScores.None? ==> r.quizScores == s.quizScores
    ensures u.streak.Some? ==> r.streak == u.streak.value
    ensures u.lastStudyDate.Some? ==> r.lastStudyDate == u.lastStudyDate.value
    ensures u.todayMinutes.Some? ==> r.todayMinutes == u.todayMinutes.value
    ensures u.totalConversations.Some? ==> r.totalConversations == u.totalConversations.value
    ensures u.wordsMastered.Some? ==> r.wordsMastered == u.wordsMastered.value
    ensures u.quizScores.Some? ==> r.quizScores == u.quizScores.value
  {
    Stats(
      Pick(u.streak, s.streak),
      Pick(u.lastStudyDate, s.lastStudyDate),
      Pick(u.todayMinutes, s.todayMinutes),
      Pick(u.totalConversations, s.totalConversations),
      Pick(u.wordsMastered, s.wordsMastered),
      Pick(u.quizScores, s.quizScores))
  }

  function Pick<T>(present: Option<T>, current: T): T {
    if present.Some? then present.value else current
  }

  /** Two partial objects assigned one after the other: the later wins. */
  function Combine(u1: StatsUpdate, u2: StatsUpdate): StatsUpdate {
    StatsUpdate(
      if u2.streak.Some? then u2.streak else u1.streak,
      if u2.lastStudyDate.Some? then u2.lastStudyDate else u1.lastStudyDate,
      if u2.todayMinutes.Some? then u2.todayMinutes else u1.todayMinutes,
      if u2.totalConversations.Some? then u2.totalConversations else u1.totalConversations,
      if u2.wordsMastered.Some? then u2.wordsMastered else u1.wordsMastered,
      if u2.quizScores.Some? then u2.quizScores else u1.quizScores)
  }

  /** Two successive `updateStats` calls have the effect of one call with
      the two partial objects combined. */
  lemma MergeTwice(s: Stats, u1: StatsUpdate, u2: StatsUpdate)
    ensures Merge(Merge(s, u1), u2) == Merge(s, Combine(u1, u2))
  {
  }

  /** `addStudyTime(minutes)` on `today`: studying again the same day adds
      to today's minutes; studying the day after the last study extends the
      streak; any other gap restarts it at 1. */
  function StudyDay(s: Stats, minutes: int, today: Day): (r: Stats)
    ensures r.lastStudyDate == Some(today)
    ensures s.lastStudyDate == Some(today) ==>
              r.streak == s.streak && r.todayMinutes == s.todayMinutes + minutes
    ensures s.lastStudyDate == Some(today - 1) ==>
              r.streak == s.streak + 1 && r.todayMinutes == minutes
    ensures s.lastStudyDate != Some(today) && s.lastStudyDate != Some(today - 1) ==>
              r.streak == 1 && r.todayMinutes == minutes
    ensures r.totalConversations == s.totalConversations
    ensures r.wordsMastered == s.wordsMastered && r.quizScores == s.quizScores
  {
    var started :=
      if s.lastStudyDate != Some(today) then
        var streak := if s.lastStudyDate == Some(today - 1) then s.streak + 1 else 1;
        s.(streak := streak, todayMinutes := 0, lastStudyDate := Some(today))
      else s;
    started.(todayMinutes := started.todayMinutes + minutes)
  }

  /** Studying `minutes` on each of `n` consecutive days starting at `first`. */
  function StudyRun(s: Stats, first: Day, n: nat, minutes: int): Stats
    decreases n
  {
    if n == 0 then s else StudyDay(StudyRun(s, first, n - 1, minutes), minutes, first + n - 1)
  }

  /** After `n` consecutive study days that do not continue an earlier run
      the streak is `n`, whatever it was before. */
  lemma {:induction false} StreakCountsConsecutiveDays(s: Stats, first: Day, n: nat, minutes: int)
    requires n >= 1
    requires s.lastStudyDate != Some(first) && s.lastStudyDate != Some(first - 1)
    ensures StudyRun(s, first, n, minutes).streak == n
    ensures StudyRun(s, first, n, minutes).lastStudyDate == Some(first + n - 1)
    ensures StudyRun(s, first, n, minutes).todayMinutes == minutes
  {
    if n > 1 {
      StreakCountsConsecutiveDays(s, first, n - 1, minutes);
    }
  }

  // ===== Word progress arithmetic =====

  /** One answer recorded on a word's progress: exactly one counter goes
      up, `lastSeen` becomes `now`, and the word is mastered exactly when it
      has at least three correct answers in total. */
  function Answered(prev: WordProgress, correct: bool, now: int): (r: WordProgress)
    ensures correct ==> r.correct == prev.correct + 1 && r.wrong == prev.wrong
    ensures !correct ==> r.wrong == prev.wrong + 1 && r.correct == prev.correct
    ensures r.mastered <==> r.correct >= 3
    ensures r.lastSeen == Some(now)
  {
    var counted :=
      if correct then prev.(correct := prev.correct + 1) else prev.(wrong := prev.wrong + 1);
    counted.(lastSeen := Some(now), mastered := counted.correct >= 3)
  }

  /** The progress map after `updateWordProgress(wordId, correct)`: an unseen
      word starts from a zeroed record, and no other word's record changes. */
  function ProgressAfter(progress: map<string, WordProgress>, wordId: string, correct: bool, now: int)
    : (r: map<string, WordProgress>)
    ensures r.Keys == progress.Keys + {wordId}
    ensures wordId !in progress ==> r[wordId] == Answered(FRESH_WORD, correct, now)
    ensures wordId in progress ==> r[wordId] == Answered(progress[wordId], correct, now)
    ensures forall w :: w in progress && w != wordId ==> r[w] == progress[w]
  {
    var prev := if wordId in progress then progress[wordId] else FRESH_WORD;
    progress[wordId := Answered(prev, correct, now)]
  }

  /** The number of records marked mastered (`Object.values(progress)
      .filter(p => p.mastered).length`). */
  function MasteredCount(progress: map<string, WordProgress>): (n: nat)
    ensures n <= |progress|
  {
    var ids := set w | w in progress && progress[w].mastered;
    assert ids <= progress.Keys;
    SubsetCardinality(ids, progress.Keys);
    |ids|
  }

  lemma SubsetCardinality<T>(a: set<T>, b: set<T>)
    requires a <= b
    ensures |a| <= |b|
  {
    if a != {} {
      var x :| x in a;
      SubsetCardinality(a - {x}, b - {x});
    }
  }

  /** Every record says `mastered` exactly when it has three correct
      answers, as every record `updateWordProgress` writes does. */
  ghost predicate ProgressWellFormed(progress: map<string, WordProgress>) {
    forall w :: w in progress ==> (progress[w].mastered <==> progress[w].correct >= 3)
  }

  /** `correct` never decreases, so a mastered word stays mastered:
      recording an answer never lowers the mastered count, and keeps the
      records well formed. */
  lemma MasteredCountNeverDrops(progress: map<string, WordProgress>, wordId: string, correct: bool, now: int)
    requires ProgressWellFormed(progress)
    ensures ProgressWellFormed(ProgressAfter(progress, wordId, correct, now))
    ensures MasteredCount(ProgressAfter(progress, wordId, correct, now)) >= MasteredCount(progress)
  {
    var after := ProgressAfter(progress, wordId, correct, now);
    var before := set w | w in progress && progress[w].mastered;
    var later := set w | w in after && after[w].mastered;
    assert before <= later;
    SubsetCardinality(before, later);
  }

  // ===== The store =====

  /** `localStorage` together with the `Storage` helper object. */
  class Store {
    var data: map<string, Raw>

    constructor (initial: map<string, Raw>)
      ensures data == initial
    {
      data := initial;
    }

    /** `get(key, fallback)`. */
    function Get(key: string, fallback: Value): Value
      reads this
    {
      Lookup(data, key, fallback)
    }

    /** A string setting: the stored string, or `fallback` when the key is
        absent, unparsable or holds a value that is not a string. */
    function GetString(key: string, fallback: string): (s: string)
      reads this
      ensures key !in data ==> s == fallback
      ensures key in data && data[key].Parses? && data[key].value.Str? ==> s == data[key].value.s
      ensures key in data && !(data[key].Parses? && data[key].value.Str?) ==> s == fallback
    {
      match Get(key, Str(fallback))
      case Str(s) => s
      case _ => fallback
    }

    /** `getApiKey(provider)`: `''` for any provider other than `openai`
        and `google`, and when no key is stored. */
    function GetApiKey(provider: string): (key: string)
      reads this
      ensures provider != "openai" && provider != "google" ==> key == ""
      ensures provider == "openai" ==> key == GetString(API_OPENAI, "")
      ensures provider == "google" ==> key == GetString(API_GOOGLE, "")
    {
      if provider == "openai" then GetString(API_OPENAI, "")
      else if provider == "google" then GetString(API_GOOGLE, "")
      else ""
    }

    /** `hasApiKey(provider)`: the stored key is not empty. */
    predicate HasApiKey(provider: string)
      reads this
    {
      |GetApiKey(provider)| > 0
    }

    predicate HasOpenAIKey()
      reads this
    {
      HasApiKey("openai")
    }

    function GetSelectedLLM(): string
      reads this
    {
      GetString(SETTING_LLM, "gpt-5-mini")
    }

    function GetSelectedTTS(): string
      reads this
    {
      GetString(SETTING_TTS, "tts-1")
    }

    function GetSelectedTTSVoice(): string
      reads this
    {
      GetString(SETTING_TTS_VOICE, "nova")
    }

    /** `hasRequiredKeys()`: the key of the selected model's family is set;
        a selected model outside the `gpt` and `gemini` families never has
        its keys, although `RouteModel` sends it to OpenAI. */
    predicate HasRequiredKeys()
      reads this
      ensures HasRequiredKeys() && StartsWith(GetSelectedLLM(), "gemini") ==> HasApiKey("google")
      ensures HasRequiredKeys() && !StartsWith(GetSelectedLLM(), "gemini") ==> HasApiKey("openai")
      ensures HasRequiredKeys() ==> StartsWith(GetSelectedLLM(), "gpt") || StartsWith(GetSelectedLLM(), "gemini")
      ensures StartsWith(GetSelectedLLM(), "gpt") && HasApiKey("openai") ==> HasRequiredKeys()
      ensures StartsWith(GetSelectedLLM(), "gemini") && HasApiKey("google") ==> HasRequiredKeys()
    {
      var llm := GetSelectedLLM();
      FamiliesAreDisjoint(llm);
      if StartsWith(llm, "gpt") then HasApiKey("openai")
      else if StartsWith(llm, "gemini") then HasApiKey("google")
      else false
    }

    /** `getProviderForLLM(model)`: an empty id means the selected model. */
    function GetProviderForLLM(model: string): (p: Provider)
      reads this
      ensures model != "" ==> p == RouteModel(model)
      ensures model == "" ==> p == RouteModel(GetSelectedLLM())
    {
      RouteModel(if model == "" then GetSelectedLLM() else model)
    }

    /** `getStats()`. */
    function GetStats(): Stats
      reads this
    {
      match Get(STATS, StatsValue(DEFAULT_STATS))
      case StatsValue(st) => st
      case _ => DEFAULT_STATS
    }

    /** `getVocabProgress()`. */
    function GetVocabProgress(): map<string, WordProgress>
      reads this
    {
      match Get(VOCAB_PROGRESS, ProgressValue(map[]))
      case ProgressValue(p) => p
      case _ => map[]
    }

    /** `set(key, value)`. */
    method Set(key: string, v: Value)
      modifies this
      ensures data == old(data)[key := Parses(v)]
    {
      data := data[key := Parses(v)];
    }

    /** `remove(key)`. */
    method Remove(key: string)
      modifies this
      ensures data == old(data) - {key}
    {
      data := data - {key};
    }

    /** `setApiKey(provider, key)`: a no-op for an unknown provider. */
    method SetApiKey(provider: string, key: string)
      modifies this
      ensures provider == "openai" ==> data == old(data)[API_OPENAI := Parses(Str(key))]
      ensures provider == "google" ==> data == old(data)[API_GOOGLE := Parses(Str(key))]
      ensures provider != "openai" && provider != "google" ==> data == old(data)
      ensures provider == "openai" || provider == "google" ==> GetApiKey(provider) == key
    {
      if provider == "openai" {
        Set(API_OPENAI, Str(key));
      } else if provider == "google" {
        Set(API_GOOGLE, Str(key));
      }
    }

    method SetSelectedLLM(model: string)
      modifies this
      ensures data == old(data)[SETTING_LLM := Parses(Str(model))]
      ensures GetSelectedLLM() == model
    {
      Set(SETTING_LLM, Str(model));
    }

    /** `updateStats(updates)`: merges the partial object into the stored
        statistics, writes them back and returns them. */
    method UpdateStats(u: StatsUpdate) returns (st: Stats)
      modifies this
      ensures st == Merge(old(GetStats()), u)
      ensures data == old(data)[STATS := Parses(StatsValue(st))]
      ensures GetStats() == st
    {
      var stats := GetStats();
      st := Merge(stats, u);
      Set(STATS, StatsValue(st));
    }

    /** `addStudyTime(minutes)` on the day `today`. */
    method AddStudyTime(minutes: int, today: Day) returns (st: Stats)
      modifies this
      ensures st == StudyDay(old(GetStats()), minutes, today)
      ensures data == old(data)[STATS := Parses(StatsValue(st))]
      ensures GetStats() == st
    {
      var stats := GetStats();
      if stats.lastStudyDate != Some(today) {
        var yesterday := today - 1;
        if stats.lastStudyDate == Some(yesterday) {
          stats := stats.(streak := stats.streak + 1);
        } else if stats.lastStudyDate != Some(today) {
          stats := stats.(streak := 1);
        }
        stats := stats.(todayMinutes := 0);
        stats := stats.(lastStudyDate := Some(today));
      }
      stats := stats.(todayMinutes := stats.todayMinutes + minutes);
      st := stats;
      Set(STATS, StatsValue(st));
    }

    /** `updateWordProgress(wordId, correct)` at time `now`; returns the
        word's new record. */
    method UpdateWordProgress(wordId: string, correct: bool, now: int) returns (rec: WordProgress)
      modifies this
      ensures GetVocabProgress() == ProgressAfter(old(GetVocabProgress()), wordId, correct, now)
      ensures rec == GetVocabProgress()[wordId]
      ensures data == old(data)[VOCAB_PROGRESS := Parses(ProgressValue(GetVocabProgress()))]
    {
      var progress := GetVocabProgress();
      if wordId !in progress {
        progress := progress[wordId := FRESH_WORD];
      }
      var entry := progress[wordId];
      if correct {
        entry := entry.(correct := entry.correct + 1);
      } else {
        entry := entry.(wrong := entry.wrong + 1);
      }
      entry := entry.(lastSeen := Some(now));
      entry := entry.(mastered := entry.correct >= 3);
      progress := progress[wordId := entry];
      Set(VOCAB_PROGRESS, ProgressValue(progress));
      rec := entry;
    }

    /** `exportAll()`: every key of `KEYS` with what `get(key)` reads
        (`None` standing for the `null` fallback). */
    method ExportAll() returns (out: map<string, Option<Value>>)
      ensures out.Keys == set k | k in KEYS
      ensures forall k :: k in out ==>
                out[k] == (if k in data && data[k].Parses? then Some(data[k].value) else None)
    {
      out := map[];
      var i := 0;
      while i < |KEYS|
        invariant 0 <= i <= |KEYS|
        invariant out.Keys == set k | k in KEYS[..i]
        invariant forall k :: k in out ==>
                    out[k] == (if k in data && data[k].Parses? then Some(data[k].value) else None)
      {
        var key := KEYS[i];
        var v := if key in data && data[key].Parses? then Some(data[key].value) else None;
        out := out[key := v];
        assert KEYS[..i + 1] == KEYS[..i] + [key];
        i := i + 1;
      }
      assert KEYS[..i] == KEYS;
    }

    /** `resetStudyData()`: statistics, word progress and conversation
        history go; API keys and model settings stay. */
    method ResetStudyData()
      modifies this
      ensures data == old(data) - STUDY_KEYS
      ensures forall k :: k in old(data) && k !in STUDY_KEYS ==> k in data && data[k] == old(data)[k]
      ensures GetApiKey("openai") == old(GetApiKey("openai"))
      ensures GetApiKey("google") == old(GetApiKey("google"))
      ensures GetSelectedLLM() == old(GetSelectedLLM())
    {
      Remove(STATS);
      Remove(VOCAB_PROGRESS);
      Remove(CONV_HISTORY);
    }

    /** `resetAll()`: every key of `KEYS` is removed; keys the application
        does not own are left. */
    method ResetAll()
      modifies this
      ensures data == old(data) - (set k | k in KEYS)
    {
      var i := 0;
      while i < |KEYS|
        invariant 0 <= i <= |KEYS|
        invariant data == old(data) - (set k | k in KEYS[..i])
      {
        Remove(KEYS[i]);
        assert KEYS[..i + 1] == KEYS[..i] + [KEYS[i]];
        i := i + 1;
      }
      assert KEYS[..i] == KEYS;
    }
  }
}
