/** The settings page of js/settings.js: saving and testing the API keys,
    the chat-model menu of the conversation page, and the reset of the
    study record. */
module Settings {
  import opened Results
  import opened Text
  import opened Storage
  import opened Api

  /** One chat model the menu can offer. */
  datatype ModelEntry = ModelEntry(value: string, name: string)

  const OPENAI_MODELS: seq<ModelEntry> := [
    ModelEntry("gpt-5-mini", "GPT-5 Mini ⚡"),
    ModelEntry("gpt-5", "GPT-5"),
    ModelEntry("gpt-5.2", "GPT-5.2 Thinking 🏆")
  ]

  const GEMINI_MODELS: seq<ModelEntry> := [
    ModelEntry("gemini-3-flash-preview", "Gemini 3 Flash ⚡"),
    ModelEntry("gemini-3.1-pro-preview", "Gemini 3.1 Pro 🧠"),
    ModelEntry("gemini-2.5-flash", "Gemini 2.5 Flash")
  ]

  /** One `<option>` of the conversation page's model menu. */
  datatype MenuOption = MenuOption(value: string, name: string, selected: bool)

  /** The menu entry shown when no key is set. */
  const PLACEHOLDER := MenuOption("", "API 키를 먼저 설정하세요", false)

  /** The models offered for a pair of key flags, OpenAI's first. */
  function OfferedModels(hasOpenAI: bool, hasGoogle: bool): (models: seq<ModelEntry>)
    ensures |models| == (if hasOpenAI then 3 else 0) + (if hasGoogle then 3 else 0)
    ensures models == [] <==> !hasOpenAI && !hasGoogle
    ensures hasOpenAI ==> models[..3] == OPENAI_MODELS
    ensures hasGoogle ==> models[|models| - 3..] == GEMINI_MODELS
  {
    var models := (if hasOpenAI then OPENAI_MODELS else []) + (if hasGoogle then GEMINI_MODELS else []);
    assert hasOpenAI ==> models[..3] == OPENAI_MODELS;
    assert hasGoogle ==> models[|models| - 3..] == GEMINI_MODELS;
    models
  }

  /** Every offered model is routed to a provider whose key is set, and
      every GPT entry comes before every Gemini entry. */
  lemma OfferedModelsAreUsable(hasOpenAI: bool, hasGoogle: bool)
    ensures var models := OfferedModels(hasOpenAI, hasGoogle);
            && (forall k :: 0 <= k < |models| && RouteModel(models[k].value) == OpenAI ==> hasOpenAI)
            && (forall k :: 0 <= k < |models| && RouteModel(models[k].value) == Google ==> hasGoogle)
            && (forall i, j :: (0 <= i < |models| && 0 <= j < |models|
                  && RouteModel(models[i].value) == OpenAI && RouteModel(models[j].value) == Google) ==> i < j)
  {
    var models := OfferedModels(hasOpenAI, hasGoogle);
    var gpt := if hasOpenAI then 3 else 0;
    assert models == (if hasOpenAI then OPENAI_MODELS else []) + (if hasGoogle then GEMINI_MODELS else []);
    forall k | 0 <= k < |models|
      ensures k < gpt ==> RouteModel(models[k].value) == OpenAI
      ensures k >= gpt ==> RouteModel(models[k].value) == Google
    {
      if k < gpt {
        GptEntryRoutesToOpenAI(k);
      } else {
        GeminiEntryRoutesToGoogle(k - gpt);
      }
    }
  }

  lemma GptEntryRoutesToOpenAI(k: nat)
    requires k < |OPENAI_MODELS|
    ensures RouteModel(OPENAI_MODELS[k].value) == OpenAI
  {
    var v := OPENAI_MODELS[k].value;
    assert StartsWith(v, "gpt") by {
      assert v[..3] == "gpt";
    }
    FamiliesAreDisjoint(v);
  }

  lemma GeminiEntryRoutesToGoogle(k: nat)
    requires k < |GEMINI_MODELS|
    ensures RouteModel(GEMINI_MODELS[k].value) == Google
  {
    var v := GEMINI_MODELS[k].value;
    assert v[..6] == "gemini";
  }

  /** `syncConvLLMSelect()`: the menu of the conversation page, built from
      the store. */
  method SyncConvLLMSelect(store: Store) returns (menu: seq<MenuOption>)
    ensures var models := OfferedModels(store.HasApiKey("openai"), store.HasApiKey("google"));
            && (models == [] ==> menu == [PLACEHOLDER])
            && (models != [] ==>
                  && |menu| == |models|
                  && forall k :: 0 <= k < |menu| ==>
                       && menu[k].value == models[k].value && menu[k].name == models[k].name
                       && (menu[k].selected <==> models[k].value == store.GetSelectedLLM()))
  {
    var currentLLM := store.GetSelectedLLM();
    var models: seq<ModelEntry> := [];
    if store.HasApiKey("openai") {
      models := models + [ModelEntry("gpt-5-mini", "GPT-5 Mini ⚡")];
      models := models + [ModelEntry("gpt-5", "GPT-5")];
      models := models + [ModelEntry("gpt-5.2", "GPT-5.2 Thinking 🏆")];
    }
    if store.HasApiKey("google") {
      models := models + [ModelEntry("gemini-3-flash-preview", "Gemini 3 Flash ⚡")];
      models := models + [ModelEntry("gemini-3.1-pro-preview", "Gemini 3.1 Pro 🧠")];
      models := models + [ModelEntry("gemini-2.5-flash", "Gemini 2.5 Flash")];
    }
    assert models == OfferedModels(store.HasApiKey("openai"), store.HasApiKey("google"));
    if |models| == 0 {
      return [PLACEHOLDER];
    }
    menu := MenuOf(models, currentLLM);
  }

  /** The `<option>` loop of `syncConvLLMSelect()`: one entry per model, in
      order, selected exactly when it is the current model. */
  method MenuOf(models: seq<ModelEntry>, currentLLM: string) returns (menu: seq<MenuOption>)
    ensures |menu| == |models|
    ensures forall k :: 0 <= k < |menu| ==>
              && menu[k].value == models[k].value && menu[k].name == models[k].name
              && (menu[k].selected <==> models[k].value == currentLLM)
  {
    menu := [];
    var i := 0;
    while i < |models|
      invariant 0 <= i <= |models|
      invariant |menu| == i
      invariant forall k :: 0 <= k < i ==>
                  && menu[k].value == models[k].value && menu[k].name == models[k].name
                  && (menu[k].selected <==> models[k].value == currentLLM)
    {
      var m := models[i];
      menu := menu + [MenuOption(m.value, m.name, m.value == currentLLM)];
      i := i + 1;
    }
  }

  /** `saveKeys()`: both inputs are stored trimmed, empty ones included. */
  method SaveKeys(store: Store, openaiInput: string, googleInput: string)
    modifies store
    ensures store.data == old(store.data)[API_OPENAI := Parses(Str(Trim(openaiInput)))]
                                         [API_GOOGLE := Parses(Str(Trim(googleInput)))]
    ensures store.GetApiKey("openai") == Trim(openaiInput)
    ensures store.GetApiKey("google") == Trim(googleInput)
    ensures store.HasApiKey("openai") <==> !AllSpace(openaiInput)
    ensures store.HasApiKey("google") <==> !AllSpace(googleInput)
  {
    var openaiKey := Trim(openaiInput);
    var googleKey := Trim(googleInput);
    store.SetApiKey("openai", openaiKey);
    store.SetApiKey("google", googleKey);
  }

  /** What the status line of one provider shows after a test. */
  datatype KeyLine = NotEntered | Tested(status: KeyStatus)

  /** `testKeys()`: saves the inputs, then tests each provider whose key
      is set against the vendor's answer `openaiReply` or `googleReply`. */
  method TestKeys(store: Store, openaiInput: string, googleInput: string,
                  openaiReply: Reply, googleReply: Reply)
    returns (openaiLine: KeyLine, googleLine: KeyLine,
             openaiRequest: Option<Request>, googleRequest: Option<Request>)
    modifies store
    ensures store.data == old(store.data)[API_OPENAI := Parses(Str(Trim(openaiInput)))]
                                         [API_GOOGLE := Parses(Str(Trim(googleInput)))]
    ensures store.GetApiKey("openai") == Trim(openaiInput) && store.GetApiKey("google") == Trim(googleInput)
    ensures AllSpace(openaiInput) ==> openaiLine == NotEntered && openaiRequest.None?
    ensures AllSpace(googleInput) ==> googleLine == NotEntered && googleRequest.None?
    ensures !AllSpace(openaiInput) ==>
              && openaiRequest == Some(ListOpenAIModels(Trim(openaiInput)))
              && openaiLine == Tested(KeyTestStatus(openaiReply))
    ensures !AllSpace(googleInput) ==>
              && googleRequest == Some(ListGeminiModels(Trim(googleInput)))
              && googleLine == Tested(KeyTestStatus(googleReply))
  {
    SaveKeys(store, openaiInput, googleInput);
    if store.HasApiKey("openai") {
      var x := TestOpenAIKey(ContextOf(store), openaiReply);
      openaiLine, openaiRequest := Tested(x.result), x.request;
    } else {
      openaiLine, openaiRequest := NotEntered, None;
    }
    if store.HasApiKey("google") {
      var x := TestGoogleKey(ContextOf(store), googleReply);
      googleLine, googleRequest := Tested(x.result), x.request;
    } else {
      googleLine, googleRequest := NotEntered, None;
    }
  }

  /** `resetData()`: the study record is cleared only when the user
      confirms. */
  method ResetData(store: Store, confirmed: bool)
    modifies store
    ensures confirmed ==> store.data == old(store.data) - STUDY_KEYS
    ensures !confirmed ==> store.data == old(store.data)
    ensures store.GetApiKey("openai") == old(store.GetApiKey("openai"))
    ensures store.GetApiKey("google") == old(store.GetApiKey("google"))
  {
    if confirmed {
      store.ResetStudyData();
    }
  }
}
