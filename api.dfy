/** The provider adapter of js/api.js: chat completion through OpenAI or
    Gemini, speech to text, text to speech and the key tests. Each HTTP
    exchange is an oracle: the caller supplies the `Reply` the vendor would
    give, and every operation returns the request it would issue (if any)
    together with its result, so that "a missing key fails before any
    request" can be stated. */
module Api {
  import opened Results
  import opened Text
  import opened Storage

  // ===== Messages =====

  datatype Role = System | User | Assistant

  /** One entry of an OpenAI-style message list. */
  datatype Message = Message(role: Role, content: string)

  /** Gemini's two speaker roles, `'user'` and `'model'`. */
  datatype GeminiRole = UserTurn | ModelTurn

  datatype Part = Part(text: string)

  /** One entry of Gemini's `contents` array. */
  datatype GeminiContent = GeminiContent(role: GeminiRole, parts: seq<Part>)

  // ===== What the adapter reads from the store =====

  /** The settings every call reads: both keys, the selected chat model and
      the speech model and voice. */
  datatype Context = Context(
    openaiKey: string,
    googleKey: string,
    selectedLLM: string,
    ttsModel: string,
    ttsVoice: string)

  function ContextOf(store: Store): (ctx: Context)
    reads store
    ensures ctx.openaiKey == "" <==> !store.HasApiKey("openai")
    ensures ctx.googleKey == "" <==> !store.HasApiKey("google")
  {
    Context(store.GetApiKey("openai"), store.GetApiKey("google"), store.GetSelectedLLM(),
            store.GetSelectedTTS(), store.GetSelectedTTSVoice())
  }

  // ===== Requests, replies, errors =====

  /** The HTTP requests the adapter can issue (audio bodies abstracted). */
  datatype Request =
    | OpenAIChat(model: string, messages: seq<Message>, bearer: string)
    | GeminiChat(model: string, contents: seq<GeminiContent>, systemInstruction: Option<string>, apiKey: string)
    | Transcription(model: string, language: string, bearer: string)
    | Speech(model: string, voice: string, input: string, format: string, bearer: string)
    | ListOpenAIModels(bearer: string)
    | ListGeminiModels(apiKey: string)

  /** What `fetch` yields: a response with its status, the vendor's
      `error.message` if the body carries one, and the expected reply field
      if present; or a rejection (network failure). */
  datatype Reply =
    | Response(status: int, vendorMessage: Option<string>, payload: Option<string>)
    | NetworkDown(reason: string)

  /** `res.ok`. */
  predicate IsOk(status: int) {
    200 <= status <= 299
  }

  /** The errors the adapter throws. */
  datatype ApiError =
    | MissingKey(provider: Provider)
    | HttpError(service: string, status: int, detail: string)
    | Unreachable(reason: string)
    | MalformedReply

  /** One call: the request it issued, if any, and what it produced. */
  datatype Exchange<T> = Exchange(request: Option<Request>, result: T)

  const UNKNOWN_ERROR := "알 수 없는 오류"

  /** `err.error?.message || '알 수 없는 오류'`. */
  function Detail(vendorMessage: Option<string>): (d: string)
    ensures vendorMessage.Some? && vendorMessage.value != "" ==> d == vendorMessage.value
    ensures vendorMessage.None? || vendorMessage.value == "" ==> d == UNKNOWN_ERROR
    ensures d != ""
  {
    if vendorMessage.Some? && vendorMessage.value != "" then vendorMessage.value else UNKNOWN_ERROR
  }

  /** The `message` of a thrown error. */
  function ErrorMessage(e: ApiError): (msg: string)
    ensures e.HttpError? ==>
              |e.detail| <= |msg| && msg[|msg| - |e.detail|..] == e.detail
              && StartsWith(msg, e.service + " 오류 (" + IntToString(e.status) + ")")
  {
    match e
    case MissingKey(OpenAI) => "OpenAI API 키가 설정되지 않았습니다."
    case MissingKey(Google) => "Google AI API 키가 설정되지 않았습니다."
    case HttpError(service, status, detail) =>
      var head := service + " 오류 (" + IntToString(status) + ")";
      assert StartsWith(head + ": " + detail, head);
      head + ": " + detail
    case Unreachable(reason) => reason
    case MalformedReply => "Cannot read properties of undefined"
  }

  /** The common ending of every call that throws on failure: a rejected
      fetch propagates, a non-ok status becomes an error naming the service,
      the status and the vendor's message, and an ok reply without the
      expected field fails. */
  function Interpret(service: string, reply: Reply): (r: Result<string, ApiError>)
    ensures r.Success? <==> reply.Response? && IsOk(reply.status) && reply.payload.Some?
    ensures r.Success? ==> r.value == reply.payload.value
    ensures reply.Response? && !IsOk(reply.status) ==>
              r == Failure(HttpError(service, reply.status, Detail(reply.vendorMessage)))
    ensures reply.NetworkDown? ==> r == Failure(Unreachable(reply.reason))
  {
    match reply
    case NetworkDown(reason) => Failure(Unreachable(reason))
    case Response(status, vendorMessage, payload) =>
      if !IsOk(status) then Failure(HttpError(service, status, Detail(vendorMessage)))
      else if payload.None? then Failure(MalformedReply)
      else Success(payload.value)
  }

  // ===== OpenAI chat =====

  /** `chatOpenAI(messages, model)`: the message list is sent as it is. */
  function ChatOpenAI(ctx: Context, messages: seq<Message>, model: string, reply: Reply)
    : (x: Exchange<Result<string, ApiError>>)
    ensures x.request.None? <==> ctx.openaiKey == ""
    ensures x.request.None? ==> x.result == Failure(MissingKey(OpenAI))
    ensures x.request.Some? ==>
              x.request.value == OpenAIChat(model, messages, ctx.openaiKey)
              && x.result == Interpret("OpenAI", reply)
  {
    if ctx.openaiKey == "" then Exchange(None, Failure(MissingKey(OpenAI)))
    else Exchange(Some(OpenAIChat(model, messages, ctx.openaiKey)), Interpret("OpenAI", reply))
  }

  // ===== Gemini translation =====

  function GeminiRoleOf(r: Role): GeminiRole {
    if r == Assistant then ModelTurn else UserTurn
  }

  /** The Gemini entry for one non-system message. */
  function ToGemini(m: Message): GeminiContent {
    GeminiContent(GeminiRoleOf(m.role), [Part(m.content)])
  }

  /** The `contents` array built from a message list. */
  function GeminiContents(ms: seq<Message>): (cs: seq<GeminiContent>)
    ensures |cs| <= |ms|
    decreases |ms|
  {
    if ms == [] then []
    else
      var last := ms[|ms| - 1];
      GeminiContents(ms[..|ms| - 1]) + (if last.role == System then [] else [ToGemini(last)])
  }

  /** The messages that are not system messages, in their order. */
  function NonSystem(ms: seq<Message>): (r: seq<Message>)
    ensures |r| <= |ms|
    ensures forall m :: m in r ==> m in ms && m.role != System
    decreases |ms|
  {
    if ms == [] then []
    else
      var last := ms[|ms| - 1];
      NonSystem(ms[..|ms| - 1]) + (if last.role == System then [] else [last])
  }

  /** No message other than a system message is dropped. */
  lemma {:induction false} NonSystemKeepsTheRest(ms: seq<Message>)
    ensures forall k :: 0 <= k < |ms| && ms[k].role != System ==> ms[k] in NonSystem(ms)
    decreases |ms|
  {
    if ms != [] {
      var init := ms[..|ms| - 1];
      var last := ms[|ms| - 1];
      var kept := NonSystem(init);
      NonSystemKeepsTheRest(init);
      assert NonSystem(ms) == kept + (if last.role == System then [] else [last]);
      forall k | 0 <= k < |ms| && ms[k].role != System
        ensures ms[k] in NonSystem(ms)
      {
        if k < |init| {
          assert init[k] == ms[k];
        }
      }
    }
  }

  /** A list without system messages is kept whole. */
  lemma {:induction false} NonSystemOfPlainList(ms: seq<Message>)
    requires forall k :: 0 <= k < |ms| ==> ms[k].role != System
    ensures NonSystem(ms) == ms
    decreases |ms|
  {
    if ms != [] {
      var init := ms[..|ms| - 1];
      var last := ms[|ms| - 1];
      assert last.role != System;
      assert NonSystem(ms) == NonSystem(init) + [last];
      NonSystemOfPlainList(init);
      assert ms == init + [last];
    }
  }

  /** Dropping the system messages keeps the order of the rest: the kept
      messages of a concatenation are those of each part, one after the
      other. */
  lemma {:induction false} NonSystemAppend(a: seq<Message>, b: seq<Message>)
    ensures NonSystem(a + b) == NonSystem(a) + NonSystem(b)
    decreases |b|
  {
    if b != [] {
      var init := b[..|b| - 1];
      var last := b[|b| - 1];
      assert (a + b)[..|a + b| - 1] == a + init;
      NonSystemAppend(a, init);
    } else {
      assert a + b == a;
    }
  }

  /** The index of the last system message, or -1. */
  function LastSystemAt(ms: seq<Message>): (k: int)
    ensures -1 <= k < |ms|
    ensures k >= 0 ==> ms[k].role == System
    ensures forall j :: k < j < |ms| ==> ms[j].role != System
    decreases |ms|
  {
    if ms == [] then -1
    else if ms[|ms| - 1].role == System then |ms| - 1
    else LastSystemAt(ms[..|ms| - 1])
  }

  /** The `systemInstruction` Gemini receives: the content of the last
      system message, attached only when it is not empty. */
  function SystemInstruction(ms: seq<Message>): (si: Option<string>)
    ensures si.Some? ==> si.value != "" && exists k :: 0 <= k < |ms| && ms[k] == Message(System, si.value)
    ensures (forall k :: 0 <= k < |ms| ==> ms[k].role != System) ==> si.None?
    ensures forall k :: 0 <= k < |ms| && ms[k].role == System && (forall j :: k < j < |ms| ==> ms[j].role != System) ==>
              si == (if ms[k].content != "" then Some(ms[k].content) else None)
    ensures si.Some? ==> exists k :: 0 <= k < |ms| && ms[k].role == System && si.value == ms[k].content
                                     && (forall j :: k < j < |ms| ==> ms[j].role != System)
  {
    var k := LastSystemAt(ms);
    if k >= 0 && ms[k].content != "" then Some(ms[k].content) else None
  }

  /** Gemini's contents, read back as messages. */
  function FromGemini(cs: seq<GeminiContent>): seq<Message> {
    seq(|cs|, i requires 0 <= i < |cs| =>
      Message(if cs[i].role == ModelTurn then Assistant else User, PartsText(cs[i].parts)))
  }

  function PartsText(parts: seq<Part>): string
    decreases |parts|
  {
    if parts == [] then "" else PartsText(parts[..|parts| - 1]) + parts[|parts| - 1].text
  }

  /** The translation is the non-system messages, one for one and in order:
      reading the contents back gives exactly those messages. */
  lemma {:induction false} GeminiRoundTrip(ms: seq<Message>)
    ensures FromGemini(GeminiContents(ms)) == NonSystem(ms)
    decreases |ms|
  {
    if ms != [] {
      var init := ms[..|ms| - 1];
      GeminiRoundTrip(init);
      GeminiStep(ms);
    }
  }

  /** One message more: the read-back contents grow by that message exactly
      when it is not a system message. */
  lemma GeminiStep(ms: seq<Message>)
    requires ms != []
    ensures var last := ms[|ms| - 1];
            FromGemini(GeminiContents(ms)) ==
            FromGemini(GeminiContents(ms[..|ms| - 1])) + (if last.role == System then [] else [last])
  {
    var cs := GeminiContents(ms[..|ms| - 1]);
    var last := ms[|ms| - 1];
    if last.role != System {
      var c := ToGemini(last);
      assert GeminiContents(ms) == cs + [c];
      assert PartsText(c.parts) == last.content by {
        assert c.parts[..0] == [];
      }
      FromGeminiAppend(cs, c);
    } else {
      assert GeminiContents(ms) == cs;
    }
  }

  lemma FromGeminiAppend(cs: seq<GeminiContent>, c: GeminiContent)
    ensures FromGemini(cs + [c]) ==
            FromGemini(cs) + [Message(if c.role == ModelTurn then Assistant else User, PartsText(c.parts))]
  {
  }

  /** Every Gemini entry carries exactly one part, and an assistant message
      becomes a `'model'` turn while every other kept role becomes `'user'`. */
  lemma {:induction false} GeminiEntriesAt(ms: seq<Message>, i: nat)
    requires i < |GeminiContents(ms)|
    ensures |NonSystem(ms)| == |GeminiContents(ms)|
    ensures GeminiContents(ms)[i] == ToGemini(NonSystem(ms)[i])
    ensures GeminiContents(ms)[i].role == ModelTurn <==> NonSystem(ms)[i].role == Assistant
    decreases |ms|
  {
    var init := ms[..|ms| - 1];
    var last := ms[|ms| - 1];
    LengthsAgree(init);
    if i < |GeminiContents(init)| {
      GeminiEntriesAt(init, i);
    }
  }

  lemma {:induction false} LengthsAgree(ms: seq<Message>)
    ensures |NonSystem(ms)| == |GeminiContents(ms)|
    decreases |ms|
  {
    if ms != [] {
      LengthsAgree(ms[..|ms| - 1]);
    }
  }

  /** The loop of `chatGemini` that builds `contents` and picks the system
      instruction (before the emptiness test that decides whether it is
      attached). */
  method TranslateForGemini(messages: seq<Message>) returns (contents: seq<GeminiContent>, instruction: Option<string>)
    ensures contents == GeminiContents(messages)
    ensures (if instruction.Some? && instruction.value != "" then instruction else None)
            == SystemInstruction(messages)
  {
    contents := [];
    instruction := None;
    var i := 0;
    while i < |messages|
      invariant 0 <= i <= |messages|
      invariant contents == GeminiContents(messages[..i])
      invariant LastSystemAt(messages[..i]) == -1 ==> instruction.None?
      invariant LastSystemAt(messages[..i]) >= 0 ==>
                  instruction == Some(messages[LastSystemAt(messages[..i])].content)
    {
      var msg := messages[i];
      assert messages[..i + 1][..i] == messages[..i];
      if msg.role == System {
        instruction := Some(msg.content);
      } else {
        contents := contents + [GeminiContent(if msg.role == Assistant then ModelTurn else UserTurn,
                                              [Part(msg.content)])];
      }
      i := i + 1;
    }
    assert messages[..i] == messages;
  }

  /** `chatGemini(messages, model)`. */
  function ChatGemini(ctx: Context, messages: seq<Message>, model: string, reply: Reply)
    : (x: Exchange<Result<string, ApiError>>)
    ensures x.request.None? <==> ctx.googleKey == ""
    ensures x.request.None? ==> x.result == Failure(MissingKey(Google))
    ensures x.request.Some? ==>
              x.request.value == GeminiChat(model, GeminiContents(messages), SystemInstruction(messages), ctx.googleKey)
              && x.result == Interpret("Gemini", reply)
  {
    if ctx.googleKey == "" then Exchange(None, Failure(MissingKey(Google)))
    else
      Exchange(Some(GeminiChat(model, GeminiContents(messages), SystemInstruction(messages), ctx.googleKey)),
               Interpret("Gemini", reply))
  }

  // ===== Routing =====

  /** `modelOverride || getSelectedLLM()`. */
  function ChosenModel(ctx: Context, modelOverride: Option<string>): string {
    if modelOverride.Some? && modelOverride.value != "" then modelOverride.value else ctx.selectedLLM
  }

  /** `chat(messages, modelOverride)`: dispatches on the provider of the
      chosen model. The "unsupported model" error is unreachable, since
      routing always names one of the two providers. */
  function Chat(ctx: Context, messages: seq<Message>, modelOverride: Option<string>, reply: Reply)
    : (x: Exchange<Result<string, ApiError>>)
    ensures var model := ChosenModel(ctx, modelOverride);
            RouteModel(model) == OpenAI ==> x == ChatOpenAI(ctx, messages, model, reply)
    ensures var model := ChosenModel(ctx, modelOverride);
            RouteModel(model) == Google ==> x == ChatGemini(ctx, messages, model, reply)
  {
    var model := ChosenModel(ctx, modelOverride);
    var provider := RouteModel(if model == "" then ctx.selectedLLM else model);
    match provider
    case OpenAI => ChatOpenAI(ctx, messages, model, reply)
    case Google => ChatGemini(ctx, messages, model, reply)
  }

  /** A Gemini model id yields a Gemini `contents` request; a GPT id an
      OpenAI `messages` request carrying the history unchanged. */
  lemma ChatRoutingExamples(ctx: Context, messages: seq<Message>, reply: Reply)
    requires ctx.openaiKey != "" && ctx.googleKey != ""
    ensures Chat(ctx, messages, Some("gemini-3-flash-preview"), reply).request
            == Some(GeminiChat("gemini-3-flash-preview", GeminiContents(messages),
                               SystemInstruction(messages), ctx.googleKey))
    ensures Chat(ctx, messages, Some("gpt-5"), reply).request
            == Some(OpenAIChat("gpt-5", messages, ctx.openaiKey))
  {
    assert StartsWith("gemini-3-flash-preview", "gemini");
    FamiliesAreDisjoint("gpt-5");
  }

  // ===== Speech =====

  /** `transcribe(audio)`: `None` when the reply has no `text` field. */
  function Transcribe(ctx: Context, reply: Reply): (x: Exchange<Result<Option<string>, ApiError>>)
    ensures x.request.None? <==> ctx.openaiKey == ""
    ensures x.request.None? ==> x.result == Failure(MissingKey(OpenAI))
    ensures x.request.Some? ==> x.request.value == Transcription("gpt-4o-mini-transcribe", "ru", ctx.openaiKey)
    ensures x.result.Success? ==> reply.Response? && IsOk(reply.status) && x.result.value == reply.payload
    ensures x.request.Some? && reply.Response? && !IsOk(reply.status) ==>
              x.result == Failure(HttpError("STT", reply.status, Detail(reply.vendorMessage)))
    ensures x.request.Some? && reply.NetworkDown? ==> x.result == Failure(Unreachable(reply.reason))
    ensures x.request.Some? && reply.Response? && IsOk(reply.status) ==> x.result == Success(reply.payload)
  {
    if ctx.openaiKey == "" then Exchange(None, Failure(MissingKey(OpenAI)))
    else
      var result :=
        match reply
        case NetworkDown(reason) => Failure(Unreachable(reason))
        case Response(status, vendorMessage, payload) =>
          if !IsOk(status) then Failure(HttpError("STT", status, Detail(vendorMessage)))
          else Success(payload);
      Exchange(Some(Transcription("gpt-4o-mini-transcribe", "ru", ctx.openaiKey)), result)
  }

  /** `speak(text)`: always OpenAI, with the stored speech model and voice. */
  function Speak(ctx: Context, text: string, reply: Reply): (x: Exchange<Result<(), ApiError>>)
    ensures x.request.None? <==> ctx.openaiKey == ""
    ensures x.request.None? ==> x.result == Failure(MissingKey(OpenAI))
    ensures x.request.Some? ==> x.request.value == Speech(ctx.ttsModel, ctx.ttsVoice, text, "mp3", ctx.openaiKey)
    ensures x.result.Success? <==> x.request.Some? && reply.Response? && IsOk(reply.status)
  {
    if ctx.openaiKey == "" then Exchange(None, Failure(MissingKey(OpenAI)))
    else
      var result :=
        match reply
        case NetworkDown(reason) => Failure(Unreachable(reason))
        case Response(status, vendorMessage, _) =>
          if !IsOk(status) then Failure(HttpError("TTS", status, Detail(vendorMessage)))
          else Success(());
      Exchange(Some(Speech(ctx.ttsModel, ctx.ttsVoice, text, "mp3", ctx.openaiKey)), result)
  }

  // ===== Key tests =====

  /** The `{ ok, msg }` record the key tests resolve to. */
  datatype KeyStatus = KeyStatus(ok: bool, msg: string)

  const NO_KEY_MSG := "키가 입력되지 않았습니다."

  /** How a key test reads the vendor's answer; it never fails. */
  function KeyTestStatus(reply: Reply): (st: KeyStatus)
    ensures st.ok <==> reply.Response? && IsOk(reply.status)
  {
    match reply
    case NetworkDown(reason) => KeyStatus(false, "❌ 네트워크 오류: " + reason)
    case Response(status, vendorMessage, _) =>
      if IsOk(status) then KeyStatus(true, "✅ 연결 성공!")
      else
        var text :=
          if vendorMessage.Some? && vendorMessage.value != "" then vendorMessage.value
          else "오류 " + IntToString(status);
        KeyStatus(false, "❌ " + text)
  }

  /** `testOpenAIKey()`: no request and `ok` false without a key. */
  function TestOpenAIKey(ctx: Context, reply: Reply): (x: Exchange<KeyStatus>)
    ensures x.request.None? <==> ctx.openaiKey == ""
    ensures x.request.None? ==> x.result == KeyStatus(false, NO_KEY_MSG)
    ensures x.request.Some? ==> x.request.value == ListOpenAIModels(ctx.openaiKey)
    ensures x.result.ok <==> ctx.openaiKey != "" && reply.Response? && IsOk(reply.status)
  {
    if ctx.openaiKey == "" then Exchange(None, KeyStatus(false, NO_KEY_MSG))
    else Exchange(Some(ListOpenAIModels(ctx.openaiKey)), KeyTestStatus(reply))
  }

  /** `testGoogleKey()`: no request and `ok` false without a key. */
  function TestGoogleKey(ctx: Context, reply: Reply): (x: Exchange<KeyStatus>)
    ensures x.request.None? <==> ctx.googleKey == ""
    ensures x.request.None? ==> x.result == KeyStatus(false, NO_KEY_MSG)
    ensures x.request.Some? ==> x.request.value == ListGeminiModels(ctx.googleKey)
    ensures x.result.ok <==> ctx.googleKey != "" && reply.Response? && IsOk(reply.status)
  {
    if ctx.googleKey == "" then Exchange(None, KeyStatus(false, NO_KEY_MSG))
    else Exchange(Some(ListGeminiModels(ctx.googleKey)), KeyTestStatus(reply))
  }
}
