/** The spoken-conversation module of js/conversation.js: the reply parser
    that splits a model reply on its `[RESPONSE]` and `[FEEDBACK]` markers,
    the system prompt, and the turn pipeline (record, transcribe, chat,
    parse, speak) with its history and re-entrancy flag. */
module Conversation {
  import opened Results
  import opened Text
  import opened Storage
  import opened Api

  // ===== Reply parsing =====

  const RESPONSE_MARKER := "[RESPONSE]"
  const FEEDBACK_MARKER := "[FEEDBACK]"

  /** Case folding of a regular expression with the `i` flag and without
      `u`: only ASCII letters fold. */
  function FoldAscii(c: char): char {
    if 'a' <= c <= 'z' then (c as int - 32) as char else c
  }

  /** `marker` (written in capitals) occurs in `s` at `i`, ignoring ASCII case. */
  predicate MarkerAt(s: string, i: nat, marker: string) {
    i + |marker| <= |s| && forall k :: 0 <= k < |marker| ==> FoldAscii(s[i + k]) == marker[k]
  }

  /** The first occurrence of `marker` at or after `from`. */
  function FindMarker(s: string, marker: string, from: nat): (r: Option<nat>)
    requires from <= |s|
    ensures r.Some? ==> from <= r.value && MarkerAt(s, r.value, marker)
    ensures forall j :: from <= j && (r.None? || j < r.value) ==> !MarkerAt(s, j, marker)
    decreases |s| - from
  {
    if from + |marker| > |s| then None
    else if MarkerAt(s, from, marker) then Some(from)
    else FindMarker(s, marker, from + 1)
  }

  predicate Mentions(s: string, marker: string) {
    FindMarker(s, marker, 0).Some?
  }

  /** The two parts of a model reply. */
  datatype Parsed = Parsed(response: string, feedback: string)

  /** `parseResponse(text)`: the response part and the feedback part of a
      reply. */
  function ParseResponse(text: string): Parsed {
    Parsed(ResponsePart(text), FeedbackPart(text))
  }

  /** The response of `parseResponse(text)`: the capture of
      `/\[RESPONSE\]\s*([\s\S]*?)(?=\[FEEDBACK\]|$)/i`, trimmed, or the whole
      reply when the pattern does not match. It is the text after the first
      `[RESPONSE]` up to the next `[FEEDBACK]` or the end, trimmed; the white
      space `\s*` skips makes no difference. */
  function ResponsePart(text: string): (response: string)
    ensures !Mentions(text, RESPONSE_MARKER) ==> response == text
    ensures Mentions(text, RESPONSE_MARKER) ==>
              IsTrimmed(response) && !Mentions(response, FEEDBACK_MARKER)
    ensures Mentions(text, RESPONSE_MARKER) ==>
              var after := FindMarker(text, RESPONSE_MARKER, 0).value + |RESPONSE_MARKER|;
              var next := FindMarker(text, FEEDBACK_MARKER, after);
              response == Trim(text[after..if next.Some? then next.value else |text|])
  {
    var r := FindMarker(text, RESPONSE_MARKER, 0);
    if r.None? then text
    else
      SkipAfter(text, r.value + |RESPONSE_MARKER|);
      UpToFeedback(text, SkipSpaces(text, r.value + |RESPONSE_MARKER|))
  }

  /** The trimmed text from `start` up to the next `[FEEDBACK]` or the end:
      the lazy `([\s\S]*?)` stops at the first place the look-ahead
      `(?=\[FEEDBACK\]|$)` succeeds. */
  function UpToFeedback(text: string, start: nat): (t: string)
    requires start <= |text|
    ensures IsTrimmed(t) && !Mentions(t, FEEDBACK_MARKER)
  {
    var next := FindMarker(text, FEEDBACK_MARKER, start);
    var stop := if next.Some? then next.value else |text|;
    ResponseHasNoFeedback(text, start, stop);
    Trim(text[start..stop])
  }

  /** The feedback of `parseResponse(text)`: the capture of
      `/\[FEEDBACK\]\s*([\s\S]*?)$/i`, trimmed, or `''` when the pattern does
      not match; that is, the text after the first `[FEEDBACK]`, trimmed. */
  function FeedbackPart(text: string): (feedback: string)
    ensures !Mentions(text, FEEDBACK_MARKER) ==> feedback == ""
    ensures Mentions(text, FEEDBACK_MARKER) ==> IsTrimmed(feedback)
    ensures Mentions(text, FEEDBACK_MARKER) ==>
              feedback == Trim(text[FindMarker(text, FEEDBACK_MARKER, 0).value + |FEEDBACK_MARKER|..])
  {
    var f := FindMarker(text, FEEDBACK_MARKER, 0);
    if f.None? then ""
    else
      var after := f.value + |FEEDBACK_MARKER|;
      var start := SkipSpaces(text, after);
      FeedbackSlice(text, after, start);
      Trim(text[start..])
  }

  /** From `after`, the response read past the white space is the trimmed
      text up to the next `[FEEDBACK]` or the end. */
  lemma SkipAfter(text: string, after: nat)
    requires after <= |text|
    ensures var next := FindMarker(text, FEEDBACK_MARKER, after);
            UpToFeedback(text, SkipSpaces(text, after)) == Trim(text[after..if next.Some? then next.value else |text|])
  {
    ResponseSlice(text, after, SkipSpaces(text, after));
  }

  /** Skipping the white space after `[RESPONSE]` changes neither where the
      next `[FEEDBACK]` is nor the trimmed response. */
  lemma ResponseSlice(text: string, a: nat, start: nat)
    requires a <= start <= |text|
    requires forall k :: a <= k < start ==> IsSpace(text[k])
    ensures UpToFeedback(text, a) == UpToFeedback(text, start)
  {
    var next := FindMarker(text, FEEDBACK_MARKER, start);
    var stop := if next.Some? then next.value else |text|;
    SpacesHoldNoMarker(text, FEEDBACK_MARKER, a, start);
    TrimSkipsSpaces(text, a, start, stop);
  }

  /** Skipping the white space after `[FEEDBACK]` does not change the
      trimmed feedback. */
  lemma FeedbackSlice(text: string, a: nat, start: nat)
    requires a <= start <= |text|
    requires forall k :: a <= k < start ==> IsSpace(text[k])
    ensures Trim(text[a..]) == Trim(text[start..])
  {
    TrimSkipsSpaces(text, a, start, |text|);
    assert text[a..|text|] == text[a..];
    assert text[start..|text|] == text[start..];
  }

  /** No marker starts in a run of white space, so the search for one
      may skip the run. */
  lemma {:induction false} SpacesHoldNoMarker(text: string, m: string, a: nat, b: nat)
    requires |m| > 0 && m[0] == '['
    requires a <= b <= |text|
    requires forall k :: a <= k < b ==> IsSpace(text[k])
    ensures FindMarker(text, m, a) == FindMarker(text, m, b)
    decreases b - a
  {
    if a < b && a + |m| <= |text| {
      NoMarkerAtSpace(text, m, a);
      assert FindMarker(text, m, a) == FindMarker(text, m, a + 1);
      SpacesHoldNoMarker(text, m, a + 1, b);
    }
  }

  lemma NoMarkerAtSpace(text: string, m: string, a: nat)
    requires |m| > 0 && m[0] == '['
    requires a < |text| && IsSpace(text[a])
    ensures !MarkerAt(text, a, m)
  {
    SpaceIsNoBracket(text[a]);
    assert text[a + 0] == text[a];
  }

  lemma SpaceIsNoBracket(c: char)
    requires IsSpace(c)
    ensures FoldAscii(c) != '['
  {
  }

  /** The white space a greedy `\s*` skips does not change the trimmed slice. */
  lemma TrimSkipsSpaces(text: string, a: nat, start: nat, stop: nat)
    requires a <= start <= stop <= |text|
    requires forall k :: a <= k < start ==> IsSpace(text[k])
    ensures Trim(text[a..stop]) == Trim(text[start..stop])
  {
    var pad := text[a..start];
    assert AllSpace(pad) by {
      forall i | 0 <= i < |pad| ensures IsSpace(pad[i]) {
        assert pad[i] == text[a + i];
      }
    }
    assert AllSpace([]);
    assert text[a..stop] == pad + text[start..stop] + [];
    TrimPadded(pad, text[start..stop], []);
  }

  /** A marker inside a slice is a marker of the whole string. */
  lemma MarkerInSlice(s: string, a: nat, b: nat, j: nat, m: string)
    requires a <= b <= |s|
    requires MarkerAt(s[a..b], j, m)
    ensures MarkerAt(s, a + j, m)
  {
    forall k | 0 <= k < |m| ensures FoldAscii(s[a + j + k]) == m[k] {
      assert s[a..b][j + k] == s[a + j + k];
    }
  }

  /** A marker of the whole string that lies inside a slice is one of the slice. */
  lemma MarkerOfSlice(s: string, a: nat, b: nat, i: nat, m: string)
    requires a <= i && i + |m| <= b <= |s|
    ensures MarkerAt(s, i, m) ==> MarkerAt(s[a..b], i - a, m)
  {
    if MarkerAt(s, i, m) {
      forall k | 0 <= k < |m| ensures FoldAscii(s[a..b][i - a + k]) == m[k] {
        assert s[a..b][i - a + k] == s[i + k];
      }
    }
  }

  /** The trimmed text between `start` and the first `[FEEDBACK]` after it
      holds no `[FEEDBACK]`. */
  lemma ResponseHasNoFeedback(text: string, start: nat, stop: nat)
    requires start <= stop <= |text|
    requires forall j :: start <= j && j < stop ==> !MarkerAt(text, j, FEEDBACK_MARKER)
    ensures !Mentions(Trim(text[start..stop]), FEEDBACK_MARKER)
  {
    var sub := text[start..stop];
    var p, q := TrimDecompose(sub);
    var t := Trim(sub);
    var f := FindMarker(t, FEEDBACK_MARKER, 0);
    if f.Some? {
      var j := f.value;
      MiddleOfJoin(p, t, q);
      MarkerInSlice(sub, |p|, |p| + |t|, j, FEEDBACK_MARKER);
      MarkerInSlice(text, start, stop, |p| + j, FEEDBACK_MARKER);
      assert false;
    }
  }

  /** The middle part of a concatenation, recovered by slicing. */
  lemma MiddleOfJoin(p: string, t: string, q: string)
    ensures (p + t + q)[|p|..|p| + |t|] == t
  {
  }

  /** Writing an ASCII-case variant of `marker`. */
  predicate Spells(w: string, marker: string) {
    |w| == |marker| && forall k :: 0 <= k < |w| ==> FoldAscii(w[k]) == marker[k]
  }

  /** A reply in the format the system prompt asks for, with the markers
      spelt `rm` and `fm`. */
  function Compose(rm: string, fm: string, response: string, feedback: string): string {
    rm + "\n" + response + "\n\n" + fm + "\n" + feedback
  }

  /** The parser inverts the reply format: a trimmed response that does not
      itself mention `[FEEDBACK]` and a trimmed feedback come back out
      unchanged, however the markers are capitalised. */
  lemma {:induction false} ParseCompose(rm: string, fm: string, response: string, feedback: string)
    requires Spells(rm, RESPONSE_MARKER) && Spells(fm, FEEDBACK_MARKER)
    requires IsTrimmed(response) && IsTrimmed(feedback)
    requires !Mentions(response, FEEDBACK_MARKER)
    ensures ParseResponse(Compose(rm, fm, response, feedback)) == Parsed(response, feedback)
  {
    var text := Compose(rm, fm, response, feedback);
    var n := |response|;
    ComposeMarkers(rm, fm, response, feedback);
    ComposeLayout(rm, fm, response, feedback);
    var start := SkipSpaces(text, 10);
    ResponseStart(rm, fm, response, feedback);
    FindMarkerIs(text, FEEDBACK_MARKER, start, 13 + n);
    ComposedResponse(rm, fm, response, feedback);
    ComposedFeedback(rm, fm, response, feedback);
  }

  /** The first `[RESPONSE]` of a composed reply is at 0 and its first
      `[FEEDBACK]` right after the response and its blank line. */
  lemma ComposeMarkers(rm: string, fm: string, response: string, feedback: string)
    requires Spells(rm, RESPONSE_MARKER) && Spells(fm, FEEDBACK_MARKER)
    requires !Mentions(response, FEEDBACK_MARKER)
    ensures var text := Compose(rm, fm, response, feedback);
            && FindMarker(text, RESPONSE_MARKER, 0) == Some(0)
            && MarkerAt(text, 13 + |response|, FEEDBACK_MARKER)
            && (forall j :: 0 <= j < 13 + |response| ==> !MarkerAt(text, j, FEEDBACK_MARKER))
            && FindMarker(text, FEEDBACK_MARKER, 0) == Some(13 + |response|)
  {
    var text := Compose(rm, fm, response, feedback);
    var p := 13 + |response|;
    ComposeLayout(rm, fm, response, feedback);
    assert MarkerAt(text, 0, RESPONSE_MARKER) by {
      forall k | 0 <= k < 10 ensures FoldAscii(text[k]) == RESPONSE_MARKER[k] {
        assert text[..10][k] == rm[k];
      }
    }
    assert MarkerAt(text, p, FEEDBACK_MARKER) by {
      forall k | 0 <= k < 10 ensures FoldAscii(text[p + k]) == FEEDBACK_MARKER[k] {
        assert text[p..p + 10][k] == fm[k];
      }
    }
    forall j | 0 <= j < p ensures !MarkerAt(text, j, FEEDBACK_MARKER) {
      NoFeedbackBefore(rm, fm, response, feedback, j);
    }
    FindMarkerIs(text, FEEDBACK_MARKER, 0, p);
  }

  /** After `[RESPONSE]` the white space `\s*` skips ends at the response,
      or at the feedback marker when the response is empty. */
  lemma ResponseStart(rm: string, fm: string, response: string, feedback: string)
    requires |rm| == 10 && |fm| == 10 && Spells(fm, FEEDBACK_MARKER)
    requires IsTrimmed(response)
    ensures var text := Compose(rm, fm, response, feedback);
            SkipSpaces(text, 10) == if response == [] then 13 else 11
  {
    var text := Compose(rm, fm, response, feedback);
    ComposeLayout(rm, fm, response, feedback);
    if response == [] {
      assert text[13] == text[13..23][0] == fm[0];
      assert FoldAscii(text[13]) == '[';
    } else {
      assert text[11] == text[11..11 + |response|][0] == response[0];
    }
  }

  lemma ComposedResponse(rm: string, fm: string, response: string, feedback: string)
    requires |rm| == 10 && |fm| == 10
    requires IsTrimmed(response)
    ensures var text := Compose(rm, fm, response, feedback);
            var start := if response == [] then 13 else 11;
            Trim(text[start..13 + |response|]) == response
  {
    var text := Compose(rm, fm, response, feedback);
    var n := |response|;
    ComposeLayout(rm, fm, response, feedback);
    if n == 0 {
      assert text[13..13] == [];
      TrimOfTrimmed(response);
    } else {
      assert text[11..13 + n] == "" + response + "\n\n";
      TrimPadded("", response, "\n\n");
      TrimOfTrimmed(response);
    }
  }

  lemma ComposedFeedback(rm: string, fm: string, response: string, feedback: string)
    requires |rm| == 10 && |fm| == 10
    requires IsTrimmed(feedback)
    ensures var text := Compose(rm, fm, response, feedback);
            var p := 13 + |response|;
            && SkipSpaces(text, p + 10) == p + 11
            && Trim(text[p + 11..]) == feedback
  {
    var text := Compose(rm, fm, response, feedback);
    var p := 13 + |response|;
    ComposeLayout(rm, fm, response, feedback);
    if feedback != [] {
      assert text[p + 11] == text[p + 11..][0] == feedback[0];
    }
    TrimOfTrimmed(feedback);
  }

  /** The case analysis behind `ParseCompose`: before the feedback marker
      every window either starts on a character that is not `[`, meets a
      line break, or lies inside the response. */
  lemma NoFeedbackBefore(rm: string, fm: string, response: string, feedback: string, j: nat)
    requires Spells(rm, RESPONSE_MARKER) && Spells(fm, FEEDBACK_MARKER)
    requires !Mentions(response, FEEDBACK_MARKER)
    requires j < 13 + |response|
    ensures !MarkerAt(Compose(rm, fm, response, feedback), j, FEEDBACK_MARKER)
  {
    if j < 10 {
      NoFeedbackInMarker(rm, fm, response, feedback, j);
    } else if j == 10 || j + 10 > 11 + |response| {
      NoFeedbackAtBreak(rm, fm, response, feedback, j);
    } else {
      NoFeedbackInResponse(rm, fm, response, feedback, j);
    }
  }

  /** A window starting inside the response marker has `R` where `F` would
      be, or no `[`. */
  lemma NoFeedbackInMarker(rm: string, fm: string, response: string, feedback: string, j: nat)
    requires Spells(rm, RESPONSE_MARKER) && |fm| == 10
    requires j < 10
    ensures !MarkerAt(Compose(rm, fm, response, feedback), j, FEEDBACK_MARKER)
  {
    var text := Compose(rm, fm, response, feedback);
    ComposeLayout(rm, fm, response, feedback);
    var k := if j == 0 then 1 else 0;
    assert text[j + k] == rm[j + k] by {
      assert text[..10][j + k] == rm[j + k];
    }
    Mismatch(text, j, k);
  }

  /** A window inside the response is a window of the response, which
      mentions no `[FEEDBACK]`. */
  lemma NoFeedbackInResponse(rm: string, fm: string, response: string, feedback: string, j: nat)
    requires |rm| == 10 && |fm| == 10
    requires !Mentions(response, FEEDBACK_MARKER)
    requires 11 <= j && j + 10 <= 11 + |response|
    ensures !MarkerAt(Compose(rm, fm, response, feedback), j, FEEDBACK_MARKER)
  {
    var text := Compose(rm, fm, response, feedback);
    ComposeLayout(rm, fm, response, feedback);
    FindMarkerIsNone(response, FEEDBACK_MARKER, j - 11);
    MarkerOfSlice(text, 11, 11 + |response|, j, FEEDBACK_MARKER);
  }

  /** A window that starts on, or reaches, one of the line breaks around
      the response meets a `\n` where the marker has a printable character. */
  lemma NoFeedbackAtBreak(rm: string, fm: string, response: string, feedback: string, j: nat)
    requires |rm| == 10 && |fm| == 10
    requires 10 <= j < 13 + |response| && (j == 10 || j + 10 > 11 + |response|)
    ensures !MarkerAt(Compose(rm, fm, response, feedback), j, FEEDBACK_MARKER)
  {
    var text := Compose(rm, fm, response, feedback);
    var n := |response|;
    ComposeLayout(rm, fm, response, feedback);
    if j == 10 || j >= 11 + n {
      Mismatch(text, j, 0);
    } else {
      Mismatch(text, j, 11 + n - j);
    }
  }

  /** One character that differs from `[FEEDBACK]` rules the marker out. */
  lemma Mismatch(s: string, j: nat, k: nat)
    requires k < |FEEDBACK_MARKER| && j + k < |s|
    requires FoldAscii(s[j + k]) != FEEDBACK_MARKER[k]
    ensures !MarkerAt(s, j, FEEDBACK_MARKER)
  {
  }

  /** A string that does not mention a marker holds it nowhere. */
  lemma FindMarkerIsNone(s: string, marker: string, j: nat)
    requires !Mentions(s, marker)
    ensures !MarkerAt(s, j, marker)
  {
    if j > |s| {
    }
  }

  /** The first occurrence at or after `from` is the marker at `p` when
      none lies between. */
  lemma FindMarkerIs(s: string, marker: string, from: nat, p: nat)
    requires from <= p <= |s|
    requires MarkerAt(s, p, marker)
    requires forall j :: from <= j < p ==> !MarkerAt(s, j, marker)
    ensures FindMarker(s, marker, from) == Some(p)
  {
  }

  /** Where the parts of a composed reply sit. */
  lemma ComposeLayout(rm: string, fm: string, response: string, feedback: string)
    requires |rm| == 10 && |fm| == 10
    ensures var text := Compose(rm, fm, response, feedback);
            var n := |response|;
            && |text| == 24 + n + |feedback|
            && text[..10] == rm
            && text[10] == '\n'
            && text[11..11 + n] == response
            && text[11 + n] == '\n' && text[12 + n] == '\n'
            && text[13 + n..23 + n] == fm
            && text[23 + n] == '\n'
            && text[24 + n..] == feedback
  {
  }

  // ===== System prompt =====

  const SYSTEM_PROMPT := @"Ты — опытный преподаватель русского языка как иностранного (РКИ).
Уровень студента: B2 (подготовка к ТРКИ-2).

ВАЖНЫЕ ПРАВИЛА:
1. Веди диалог ТОЛЬКО на русском языке.
2. После каждого ответа студента сначала ЕСТЕСТВЕННО ПРОДОЛЖИ диалог, затем дай обратную связь.
3. Используй лексику и грамматику уровня B2-C1.
4. Если студент делает грамматическую ошибку — исправь её и КРАТКО объясни на корейском (한국어).
5. Предлагай более естественные варианты фраз, если студент говорит слишком просто.

ФОРМАТ ОТВЕТА (СТРОГО СОБЛЮДАЙ):
[RESPONSE]
(твой ответ в диалоге — на русском)

[FEEDBACK]
(грамматические исправления и комментарии — смешай русский и корейский для пояснений)"

  /** The scenario texts keyed by the scenario selector's values. */
  const SCENARIOS: map<string, string> := map[
    "daily-cafe" := "Студент заказывает кофе и десерт в московском кафе. Ты — бариста. Задавай вопросы о заказе.",
    "daily-market" := "Студент покупает продукты на рынке. Ты — продавец. Обсуди цены, вес, свежесть.",
    "opinion-culture" := "Обсуди с студентом русскую или корейскую культуру. Спрашивай его мнение, соглашайся или спорь.",
    "travel-hotel" := "Студент заселяется в гостиницу в Санкт-Петербурге. Ты — администратор. Обсуди номер, цену, завтрак."
  ]

  const DEFAULT_SCENARIO := "Свободный диалог на русском языке уровня B2."

  /** `getScenarioDescription(id)`: the scenario's text, or the free
      dialogue text for an unknown id. */
  function ScenarioDescription(id: string): (d: string)
    ensures d != ""
    ensures id in SCENARIOS ==> d == SCENARIOS[id]
    ensures id !in SCENARIOS ==> d == DEFAULT_SCENARIO
  {
    if id in SCENARIOS then SCENARIOS[id] else DEFAULT_SCENARIO
  }

  /** The system message of the first turn: the fixed prompt, followed by
      the scenario text unless the scenario is `free`. */
  function SystemPrompt(base: string, scenario: string): (p: string)
    ensures StartsWith(p, base)
    ensures scenario == "free" <==> p == base
    ensures scenario != "free" ==>
              p[|base|..] == "\n\nСЦЕНАРИЙ: " + ScenarioDescription(scenario)
  {
    if scenario != "free" then
      Extends(base, "\n\nСЦЕНАРИЙ: " + ScenarioDescription(scenario));
      base + ("\n\nСЦЕНАРИЙ: " + ScenarioDescription(scenario))
    else base
  }

  /** A non-empty suffix makes a longer string that starts with the original. */
  lemma Extends(a: string, b: string)
    requires b != []
    ensures StartsWith(a + b, a) && (a + b)[|a|..] == b && a + b != a
  {
    assert (a + b)[..|a|] == a;
    assert |a + b| > |a|;
  }

  // ===== The turn =====

  /** The history holds at most one system message, and only at index 0. */
  predicate HistoryWellFormed(h: seq<Message>) {
    (|h| > 0 ==> h[0].role == System)
    && forall i :: 1 <= i < |h| ==> h[i].role != System
  }

  /** How a voice turn ended. `sent` is the history the chat call received;
      `spoken` is the text handed to speech synthesis. */
  datatype TurnOutcome =
    | Busy
    | TranscriptionFailed(error: ApiError)
    | NotRecognized
    | ChatFailed(sent: seq<Message>, error: ApiError)
    | Replied(sent: seq<Message>, reply: Parsed, spoken: Option<string>)

  datatype TurnResult = TurnResult(outcome: TurnOutcome, history: seq<Message>)

  /** Whether a transcript counts as speech (`userText` is set and its
      trimmed form is not empty). */
  predicate Recognized(transcript: Option<string>) {
    transcript.Some? && Trim(transcript.value) != ""
  }

  /** The history sent to the chat call: the system prompt first if the
      history is empty, then the user's transcript. */
  function Outgoing(history: seq<Message>, prompt: string, transcript: string): seq<Message> {
    history
    + (if history == [] then [Message(System, prompt)] else [])
    + [Message(User, transcript)]
  }

  /** The outgoing history keeps the single system message at index 0. */
  lemma OutgoingWellFormed(history: seq<Message>, prompt: string, transcript: string)
    ensures HistoryWellFormed(history) ==> HistoryWellFormed(Outgoing(history, prompt, transcript))
  {
  }

  /** One voice turn from the transcription result on, for a caller that
      is not already processing: `prompt` is the system message a first
      turn starts with, and `chat` answers the history it is given. */
  function Turn(history: seq<Message>, prompt: string,
                transcription: Result<Option<string>, ApiError>,
                chat: seq<Message> -> Result<string, ApiError>): (r: TurnResult)
    // the earlier history is never rewritten
    ensures |r.history| >= |history| && r.history[..|history|] == history
    // a failed or empty transcription leaves the history as it was
    ensures transcription.Failure? ==>
              r.outcome == TranscriptionFailed(transcription.error) && r.history == history
    ensures transcription.Success? && !Recognized(transcription.value) ==>
              r.outcome == NotRecognized && r.history == history
    ensures r.outcome != Busy
    // the system prompt stays the single system message, at index 0
    ensures HistoryWellFormed(history) ==> HistoryWellFormed(r.history)
  {
    match transcription
    case Failure(e) => TurnResult(TranscriptionFailed(e), history)
    case Success(transcript) =>
      if !Recognized(transcript) then TurnResult(NotRecognized, history)
      else
        var sent := Outgoing(history, prompt, transcript.value);
        OutgoingWellFormed(history, prompt, transcript.value);
        assert sent[..|history|] == history;
        match chat(sent)
        case Failure(e) => TurnResult(ChatFailed(sent, e), sent)
        case Success(reply) =>
          assert (sent + [Message(Assistant, reply)])[..|history|] == history;
          Answered(sent, reply)
  }

  /** The end of a turn whose chat call returned `reply`: the raw reply is
      stored, and only the parsed response is spoken, when it is not empty. */
  function Answered(sent: seq<Message>, reply: string): (r: TurnResult)
    ensures r.history == sent + [Message(Assistant, reply)]
    ensures r.outcome.Replied? && r.outcome.sent == sent
  {
    var parsed := ParseResponse(reply);
    var spoken := if parsed.response != "" then Some(parsed.response) else None;
    TurnResult(Replied(sent, parsed, spoken), sent + [Message(Assistant, reply)])
  }

  /** A recognised transcript is sent as the last user message, after the
      system prompt on the first turn; a failed chat call keeps it without
      a reply, and a reply is stored raw, as the chat call returned it. */
  lemma TurnRecordsExchange(history: seq<Message>, prompt: string,
                            transcript: string,
                            chat: seq<Message> -> Result<string, ApiError>)
    requires Trim(transcript) != ""
    ensures var r := Turn(history, prompt, Success(Some(transcript)), chat);
            var sent := Outgoing(history, prompt, transcript);
            && sent[|sent| - 1] == Message(User, transcript)
            && (history == [] ==> sent[0] == Message(System, prompt))
            && (chat(sent).Failure? ==> r.outcome == ChatFailed(sent, chat(sent).error) && r.history == sent)
            && (chat(sent).Success? ==>
                  && r.outcome.Replied? && r.outcome.sent == sent
                  && r.history == sent + [Message(Assistant, chat(sent).value)])
  {
  }

  /** Only the response part of a reply is spoken, and only when it is not
      empty: the feedback part is never read aloud. */
  lemma FeedbackNeverSpoken(history: seq<Message>, prompt: string,
                            transcription: Result<Option<string>, ApiError>,
                            chat: seq<Message> -> Result<string, ApiError>)
    ensures var r := Turn(history, prompt, transcription, chat);
            r.outcome.Replied? ==>
              && chat(r.outcome.sent).Success?
              && r.outcome.reply == ParseResponse(chat(r.outcome.sent).value)
              && (r.outcome.spoken.Some? <==> r.outcome.reply.response != "")
              && (r.outcome.spoken.Some? ==> r.outcome.spoken.value == r.outcome.reply.response)
  {
  }

  /** A completed turn adds three messages to an empty history (system,
      user, assistant) and two to any other; a turn whose chat call failed
      adds one fewer. */
  lemma TurnGrowth(history: seq<Message>, prompt: string,
                   transcription: Result<Option<string>, ApiError>,
                   chat: seq<Message> -> Result<string, ApiError>)
    ensures var r := Turn(history, prompt, transcription, chat);
            r.outcome.Replied? ==> |r.history| == |history| + (if history == [] then 3 else 2)
    ensures var r := Turn(history, prompt, transcription, chat);
            r.outcome.ChatFailed? ==> |r.history| == |history| + (if history == [] then 2 else 1)
  {
  }

  /** The first turn's history, for a recognised transcript and a chat
      that answers `reply`: system prompt, user transcript, raw reply. */
  lemma FirstTurn(prompt: string, transcript: string, reply: string,
                  chat: seq<Message> -> Result<string, ApiError>)
    requires Trim(transcript) != ""
    requires chat([Message(System, prompt), Message(User, transcript)]) == Success(reply)
    ensures Turn([], prompt, Success(Some(transcript)), chat).history
            == [Message(System, prompt), Message(User, transcript), Message(Assistant, reply)]
  {
    assert Outgoing([], prompt, transcript) == [Message(System, prompt), Message(User, transcript)];
  }

  // ===== The recorder (the part of js/audio.js the toggle depends on) =====

  /** `Audio_.isRecording` and the start/stop calls on it. */
  class Recorder {
    var isRecording: bool

    constructor ()
      ensures !isRecording
    {
      isRecording := false;
    }

    /** `startRecording()`: recording begins when microphone access is
        granted; otherwise it throws and nothing changes. */
    method Start(granted: bool) returns (ok: bool)
      modifies this
      ensures ok == granted
      ensures isRecording == (old(isRecording) || granted)
    {
      ok := granted;
      if granted {
        isRecording := true;
      }
    }

    /** `stopRecording()`: `None` (`null`) when nothing is being recorded,
        otherwise a buffer of the captured size. */
    method Stop(capturedBytes: nat) returns (blobSize: Option<nat>)
      modifies this
      ensures !isRecording
      ensures old(isRecording) ==> blobSize == Some(capturedBytes)
      ensures !old(isRecording) ==> blobSize.None?
    {
      if isRecording {
        blobSize := Some(capturedBytes);
        isRecording := false;
      } else {
        blobSize := None;
      }
    }
  }

  // ===== The session =====

  /** What a press of the record button did. */
  datatype ToggleOutcome =
    | Ignored
    | KeyMissing
    | StartedRecording
    | MicDenied
    | NothingCaptured
    | Processed(turn: TurnOutcome)

  /** What the end-of-conversation button did. */
  datatype EndOutcome =
    | TooShort
    | Evaluated(sent: seq<Message>, evaluation: string)
    | EvaluationFailed(sent: seq<Message>, error: ApiError)

  const EVALUATION_REQUEST := @"이 대화를 종합 평가해줘. 다음 항목을 한국어로 작성해줘:
1. 📊 전체 평가 (A~D 등급)
2. ✅ 잘한 점
3. ⚠️ 개선할 점 (구체적 문법 오류 포함)
4. 📚 이 대화에서 배울 수 있는 새 단어/표현 5개
5. 💡 다음에 연습할 때 팁"

  /** Milliseconds in a minute. */
  const MINUTE_MS := 60000

  /** The `Conversation` object: its fixed system prompt, its history, its
      processing flag and the time the conversation started. */
  class Session {
    const systemPrompt: string
    var messages: seq<Message>
    var isProcessing: bool
    var startTime: Option<int>

    ghost predicate Valid()
      reads this
    {
      HistoryWellFormed(messages)
    }

    constructor ()
      ensures Valid()
      ensures systemPrompt == SYSTEM_PROMPT
      ensures messages == [] && !isProcessing && startTime.None?
    {
      systemPrompt := SYSTEM_PROMPT;
      messages := [];
      isProcessing := false;
      startTime := None;
    }

    /** `processVoiceInput(blob)` at time `now`, with the selected scenario,
        the transcription result and the chat call as oracles. A call made
        while a turn is in flight changes nothing. */
    method ProcessVoiceInput(scenario: string, transcription: Result<Option<string>, ApiError>,
                             chat: seq<Message> -> Result<string, ApiError>, now: int)
      returns (outcome: TurnOutcome)
      requires Valid()
      modifies this
      ensures Valid()
      ensures old(isProcessing) ==>
                outcome == Busy && isProcessing
                && messages == old(messages) && startTime == old(startTime)
      ensures !old(isProcessing) ==>
                && outcome == Turn(old(messages), SystemPrompt(systemPrompt, scenario), transcription, chat).outcome
                && messages == Turn(old(messages), SystemPrompt(systemPrompt, scenario), transcription, chat).history
                && !isProcessing
                && startTime == (if old(startTime).None? then Some(now) else old(startTime))
    {
      if isProcessing {
        return Busy;
      }
      ghost var prompt := SystemPrompt(systemPrompt, scenario);
      ghost var expected := Turn(messages, prompt, transcription, chat);
      isProcessing := true;
      if startTime.None? {
        startTime := Some(now);
      }
      if transcription.Failure? {
        outcome := TranscriptionFailed(transcription.error);
      } else if !Recognized(transcription.value) {
        outcome := NotRecognized;
      } else {
        var userText := transcription.value.value;
        ghost var before := messages;
        if |messages| == 0 {
          messages := messages + [Message(System, SystemPrompt(systemPrompt, scenario))];
        }
        messages := messages + [Message(User, userText)];
        var sent := messages;
        assert sent == Outgoing(before, prompt, userText);
        var answer := chat(sent);
        if answer.Failure? {
          outcome := ChatFailed(sent, answer.error);
          assert expected == TurnResult(outcome, sent);
        } else {
          messages := messages + [Message(Assistant, answer.value)];
          var parsed := ParseResponse(answer.value);
          var spoken := None;
          if parsed.response != "" {
            spoken := Some(parsed.response);
          }
          outcome := Replied(sent, parsed, spoken);
          assert expected == TurnResult(outcome, messages);
        }
      }
      assert outcome == expected.outcome && messages == expected.history;
      isProcessing := false;
    }

    /** `toggleRecording()`: ignored while processing; otherwise it stops a
        running recording and processes a non-empty buffer, or starts one
        if the OpenAI key is set and the microphone is granted. */
    method ToggleRecording(recorder: Recorder, store: Store, micGranted: bool, capturedBytes: nat,
                           scenario: string, transcription: Result<Option<string>, ApiError>,
                           chat: seq<Message> -> Result<string, ApiError>, now: int)
      returns (outcome: ToggleOutcome)
      requires Valid()
      modifies this, recorder
      ensures Valid()
      ensures old(isProcessing) ==>
                outcome == Ignored && recorder.isRecording == old(recorder.isRecording)
                && messages == old(messages) && isProcessing && startTime == old(startTime)
      ensures !old(isProcessing) && old(recorder.isRecording) ==>
                !recorder.isRecording
                && (capturedBytes == 0 ==>
                      outcome == NothingCaptured && messages == old(messages) && startTime == old(startTime))
                && (capturedBytes > 0 ==>
                      outcome == Processed(Turn(old(messages), SystemPrompt(systemPrompt, scenario), transcription, chat).outcome)
                      && messages == Turn(old(messages), SystemPrompt(systemPrompt, scenario), transcription, chat).history
                      && startTime == (if old(startTime).None? then Some(now) else old(startTime)))
      ensures !old(isProcessing) && !old(recorder.isRecording) ==>
                messages == old(messages) && startTime == old(startTime)
                && (!store.HasOpenAIKey() ==> outcome == KeyMissing && !recorder.isRecording)
                && (store.HasOpenAIKey() ==>
                      recorder.isRecording == micGranted
                      && outcome == (if micGranted then StartedRecording else MicDenied))
      ensures !isProcessing || old(isProcessing)
    {
      if isProcessing {
        return Ignored;
      }
      if recorder.isRecording {
        var blob := recorder.Stop(capturedBytes);
        if blob.Some? && blob.value > 0 {
          var turn := ProcessVoiceInput(scenario, transcription, chat, now);
          outcome := Processed(turn);
        } else {
          outcome := NothingCaptured;
        }
      } else {
        if !store.HasOpenAIKey() {
          return KeyMissing;
        }
        var ok := recorder.Start(micGranted);
        outcome := if ok then StartedRecording else MicDenied;
      }
    }

    /** `resetConversation()`: a new conversation with no history. */
    method ResetConversation()
      modifies this
      ensures Valid()
      ensures messages == [] && startTime.None? && isProcessing == old(isProcessing)
    {
      messages := [];
      startTime := None;
    }

    /** `endConversation()` at time `now` on day `today`: refuses a history
        of fewer than three messages; otherwise asks for an evaluation of a
        copy of the history plus one user request, and on success records
        the elapsed minutes and one more conversation. The history itself
        is never modified. */
    method EndConversation(store: Store, chat: seq<Message> -> Result<string, ApiError>, now: int, today: Day)
      returns (outcome: EndOutcome)
      modifies this, store
      ensures messages == old(messages) && startTime == old(startTime)
      ensures |old(messages)| < 3 ==>
                outcome == TooShort && isProcessing == old(isProcessing) && store.data == old(store.data)
      ensures |old(messages)| >= 3 ==>
                var sent := old(messages) + [Message(User, EVALUATION_REQUEST)];
                && !isProcessing
                && (chat(sent).Failure? ==>
                      outcome == EvaluationFailed(sent, chat(sent).error) && store.data == old(store.data))
                && (chat(sent).Success? ==> outcome == Evaluated(sent, chat(sent).value))
                && (chat(sent).Success? && startTime.None? ==> store.data == old(store.data))
                && (chat(sent).Success? && startTime.Some? ==>
                      var studied := StudyDay(old(store.GetStats()), RoundDiv(now - startTime.value, MINUTE_MS), today);
                      && store.GetStats() == studied.(totalConversations := studied.totalConversations + 1)
                      && store.data == old(store.data)[STATS := Parses(StatsValue(store.GetStats()))])
    {
      if |messages| < 3 {
        return TooShort;
      }
      isProcessing := true;
      var sent := messages + [Message(User, EVALUATION_REQUEST)];
      var answer := chat(sent);
      if answer.Failure? {
        outcome := EvaluationFailed(sent, answer.error);
      } else {
        outcome := Evaluated(sent, answer.value);
        if startTime.Some? {
          var minutes := RoundDiv(now - startTime.value, MINUTE_MS);
          var _ := store.AddStudyTime(minutes, today);
          var stats := store.GetStats();
          stats := stats.(totalConversations := stats.totalConversations + 1);
          var _ := store.UpdateStats(StatsUpdate(Some(stats.streak), Some(stats.lastStudyDate),
                                                 Some(stats.todayMinutes), Some(stats.totalConversations),
                                                 Some(stats.wordsMastered), Some(stats.quizScores)));
        }
      }
      isProcessing := false;
    }
  }
}
