/**
 * Language-model settings and the call path (App.jsx:43-60, 78-79, 176-193,
 * 251-252, 284-289, 314-349): the preset endpoints and models per provider,
 * the fallbacks the component reads the settings through, the validation of
 * the settings form, and the three checks and the choice of wire format
 * that precede every call. The HTTP exchange itself is a function parameter.
 */
module Llm {
  import opened Wrappers
  import opened Text

  /** The preset endpoint of a provider; `""` for one without a preset, which
      is as falsy as the `undefined` of an unknown provider. */
  function PresetEndpoint(provider: string): string {
    if provider == "openai" then "https://api.openai.com/v1/chat/completions"
    else if provider == "claude" then "https://api.anthropic.com/v1/messages"
    else if provider == "gemini" then "https://generativelanguage.googleapis.com/v1beta/openai/"
    else ""
  }

  /** The preset model of a provider, `""` when there is none. */
  function PresetModel(provider: string): string {
    if provider == "openai" then "gpt-4o-mini"
    else if provider == "claude" then "claude-3-5-sonnet-20241022"
    else if provider == "gemini" then "gemini-1.0-pro"
    else ""
  }

  /** The providers the settings dialog offers. */
  predicate Offered(provider: string) {
    provider in {"openai", "claude", "gemini", "custom"}
  }

  /** The stored settings (`apiProvider`, `apiKey`, `apiEndpoint`, `apiModel`). */
  datatype Settings = Settings(provider: string, key: string, endpoint: string, model: string)

  /** `currentEndpoint`: the stored endpoint, else the provider's preset. */
  function CurrentEndpoint(s: Settings): (e: string)
    ensures s.endpoint != "" ==> e == s.endpoint
    ensures s.endpoint == "" ==> e == PresetEndpoint(s.provider)
  {
    if s.endpoint != "" then s.endpoint else PresetEndpoint(s.provider)
  }

  /** `currentModel`: the stored model, else the provider's preset. */
  function CurrentModel(s: Settings): (m: string)
    ensures s.model != "" ==> m == s.model
    ensures s.model == "" ==> m == PresetModel(s.provider)
  {
    if s.model != "" then s.model else PresetModel(s.provider)
  }

  /** The provider assumed when none was stored. */
  const DefaultProvider: string := "openai"

  /** The settings the component starts from, given what was stored: the
      stored provider, or `openai` when none was stored; the stored key; the
      stored endpoint and model, or the provider's presets where none was
      stored. */
  function Restore(saved: Settings): (s: Settings)
    ensures s.provider == (if saved.provider != "" then saved.provider else DefaultProvider)
    ensures s.key == saved.key
    ensures s.endpoint == (if saved.endpoint != "" then saved.endpoint else PresetEndpoint(s.provider))
    ensures s.model == (if saved.model != "" then saved.model else PresetModel(s.provider))
  {
    var provider := if saved.provider != "" then saved.provider else DefaultProvider;
    var withProvider := saved.(provider := provider);
    Settings(provider, saved.key, CurrentEndpoint(withProvider), CurrentModel(withProvider))
  }

  /** With a provider that has presets, only the key can be missing. */
  lemma PresetsFillEndpointAndModel(s: Settings)
    requires s.provider in {"openai", "claude", "gemini"}
    ensures CurrentEndpoint(s) != "" && CurrentModel(s) != ""
  {
  }

  /** The wire formats a call can take. */
  datatype Api = OpenAIFormat | Claude | Gemini

  /** `claude` and `gemini` have their own formats; every other provider,
      `custom` and unknown ones included, speaks the OpenAI format. */
  function ApiOf(provider: string): (a: Api)
    ensures a == Claude <==> provider == "claude"
    ensures a == Gemini <==> provider == "gemini"
    ensures a == OpenAIFormat <==> provider != "claude" && provider != "gemini"
  {
    if provider == "claude" then Claude
    else if provider == "gemini" then Gemini
    else OpenAIFormat
  }

  /** The native Gemini address, which carries the model and the key. */
  function GeminiUrl(model: string, key: string): string {
    "https://generativelanguage.googleapis.com/v1beta/models/" + model + ":generateContent?key=" + key
  }

  /** What a call sends: the format, the address, the key, the model and the prompt. */
  datatype Request = Request(api: Api, url: string, key: string, model: string, prompt: string)

  const MissingKey: string := "API 키가 설정되지 않았습니다."
  const MissingEndpoint: string := "API 엔드포인트가 설정되지 않았습니다."
  const MissingModel: string := "모델이 설정되지 않았습니다."

  /** The checks of `generateWithLLM` and the request the chosen path sends:
      key, then endpoint, then model; the first one missing is the error. */
  function PrepareCall(s: Settings, prompt: string): (r: Result<Request, string>)
    ensures s.key == "" ==> r == Err(MissingKey)
    ensures s.key != "" && CurrentEndpoint(s) == "" ==> r == Err(MissingEndpoint)
    ensures s.key != "" && CurrentEndpoint(s) != "" && CurrentModel(s) == "" ==> r == Err(MissingModel)
    ensures r.Ok? <==> s.key != "" && CurrentEndpoint(s) != "" && CurrentModel(s) != ""
    ensures r.Ok? ==> (r.value.api == ApiOf(s.provider) && r.value.key == s.key
      && r.value.model == CurrentModel(s) && r.value.prompt == prompt)
    ensures r.Ok? && r.value.api != Gemini ==> r.value.url == CurrentEndpoint(s)
    ensures r.Ok? && r.value.api == Gemini ==> r.value.url == GeminiUrl(CurrentModel(s), s.key)
  {
    if s.key == "" then Err(MissingKey)
    else if CurrentEndpoint(s) == "" then Err(MissingEndpoint)
    else if CurrentModel(s) == "" then Err(MissingModel)
    else
      var api := ApiOf(s.provider);
      var url := if api == Gemini then GeminiUrl(CurrentModel(s), s.key) else CurrentEndpoint(s);
      Ok(Request(api, url, s.key, CurrentModel(s), prompt))
  }

  /** `generateWithLLM`: a failed check is the result and nothing is sent;
      otherwise the answer of the provider (`respond`) to the prepared request
      is. */
  function GenerateWithLLM(s: Settings, prompt: string, respond: Request -> Result<string, string>): (r: Result<string, string>)
    ensures PrepareCall(s, prompt).Err? ==> r == Err(PrepareCall(s, prompt).error)
    ensures PrepareCall(s, prompt).Ok? ==> r == respond(PrepareCall(s, prompt).value)
  {
    match PrepareCall(s, prompt)
    case Err(m) => Err(m)
    case Ok(req) => respond(req)
  }

  /** Without a key no request reaches the provider, whatever it would answer. */
  lemma NoKeyNoCall(s: Settings, prompt: string, respond: Request -> Result<string, string>)
    requires s.key == ""
    ensures GenerateWithLLM(s, prompt, respond) == Err(MissingKey)
  {
  }

  const EnterKey: string := "API 키를 입력해주세요."
  const EnterEndpoint: string := "API 엔드포인트를 입력해주세요."
  const EnterModel: string := "모델명을 입력해주세요."

  /** The values `saveSettings` stores: the trimmed key, endpoint and model. */
  datatype Saved = Saved(key: string, endpoint: string, model: string)

  /** `saveSettings`' checks: the inputs are trimmed, and the first one left
      empty, in key, endpoint, model order, is reported. */
  function ValidateInputs(keyInput: string, endpointInput: string, modelInput: string): (r: Result<Saved, string>)
    ensures Trim(keyInput) == "" ==> r == Err(EnterKey)
    ensures Trim(keyInput) != "" && Trim(endpointInput) == "" ==> r == Err(EnterEndpoint)
    ensures Trim(keyInput) != "" && Trim(endpointInput) != "" && Trim(modelInput) == "" ==> r == Err(EnterModel)
    ensures r.Ok? <==> Trim(keyInput) != "" && Trim(endpointInput) != "" && Trim(modelInput) != ""
    ensures r.Ok? ==> r.value == Saved(Trim(keyInput), Trim(endpointInput), Trim(modelInput))
  {
    var k, e, m := Trim(keyInput), Trim(endpointInput), Trim(modelInput);
    if k == "" then Err(EnterKey)
    else if e == "" then Err(EnterEndpoint)
    else if m == "" then Err(EnterModel)
    else Ok(Saved(k, e, m))
  }

  /** Settings that were saved pass every check of a later call, for any provider. */
  lemma SavedSettingsCanCall(provider: string, keyInput: string, endpointInput: string, modelInput: string, prompt: string)
    requires ValidateInputs(keyInput, endpointInput, modelInput).Ok?
    ensures var v := ValidateInputs(keyInput, endpointInput, modelInput).value;
      PrepareCall(Settings(provider, v.key, v.endpoint, v.model), prompt).Ok?
  {
  }

  /** Saving what was saved stores the same values again. */
  lemma SaveIdempotent(keyInput: string, endpointInput: string, modelInput: string)
    requires ValidateInputs(keyInput, endpointInput, modelInput).Ok?
    ensures var v := ValidateInputs(keyInput, endpointInput, modelInput).value;
      ValidateInputs(v.key, v.endpoint, v.model) == Ok(v)
  {
    TrimIdempotent(keyInput, IsSpace);
    TrimIdempotent(endpointInput, IsSpace);
    TrimIdempotent(modelInput, IsSpace);
  }

  /** The form's three inputs. */
  datatype Inputs = Inputs(key: string, endpoint: string, model: string)

  /** `openSettings`: the form shows the stored key and the effective endpoint and model. */
  function OpenForm(s: Settings): (f: Inputs)
    ensures f.key == s.key && f.endpoint == CurrentEndpoint(s) && f.model == CurrentModel(s)
  {
    Inputs(s.key, CurrentEndpoint(s), CurrentModel(s))
  }

  /** `handleProviderChange`: the endpoint and model inputs take the new
      provider's presets; the key input stays. */
  function ChangeProvider(f: Inputs, provider: string): (g: Inputs)
    requires Offered(provider)
    ensures g.key == f.key && g.endpoint == PresetEndpoint(provider) && g.model == PresetModel(provider)
  {
    Inputs(f.key, PresetEndpoint(provider), PresetModel(provider))
  }

  /** On a first run nothing is stored: the form opens on the OpenAI endpoint
      and model, so typing a key is enough for the save to succeed. */
  lemma FirstRunNeedsOnlyAKey(keyInput: string)
    requires Trim(keyInput) != ""
    ensures var f := OpenForm(Restore(Settings("", "", "", "")));
      f.endpoint == PresetEndpoint(DefaultProvider) && f.model == PresetModel(DefaultProvider)
      && ValidateInputs(keyInput, f.endpoint, f.model).Ok?
  {
    var s := Restore(Settings("", "", "", ""));
    assert s.provider == DefaultProvider;
    DefaultPresetsAreNotBlank();
  }

  /** The preset endpoint and model of the default provider survive trimming. */
  lemma DefaultPresetsAreNotBlank()
    ensures Trim(PresetEndpoint(DefaultProvider)) != "" && Trim(PresetModel(DefaultProvider)) != ""
  {
    DefaultEndpointIsNotBlank();
    DefaultModelIsNotBlank();
  }

  /** The OpenAI endpoint is not blank. */
  lemma DefaultEndpointIsNotBlank()
    ensures Trim(PresetEndpoint(DefaultProvider)) != ""
  {
    var e := PresetEndpoint("openai");
    assert e == "https://api.openai.com/v1/chat/completions";
    assert e[0] == 'h';
    NotAllSpace(e);
  }

  /** The OpenAI model is not blank. */
  lemma DefaultModelIsNotBlank()
    ensures Trim(PresetModel(DefaultProvider)) != ""
  {
    var m := PresetModel("openai");
    assert m == "gpt-4o-mini";
    assert m[0] == 'g';
    NotAllSpace(m);
  }

  /** A string whose first character is not space does not trim to nothing. */
  lemma NotAllSpace(s: string)
    requires |s| > 0 && !IsSpace(s[0])
    ensures Trim(s) != ""
  {
    assert !SpaceBetween(s, IsSpace, 0, |s|) by {
      assert !IsSpace(s[0]);
    }
  }

  /** Opening the form and saving it unchanged keeps a working configuration
      working, with the effective values made explicit. */
  lemma ReopenAndSave(s: Settings, prompt: string)
    requires PrepareCall(s, prompt).Ok?
    requires Trim(s.key) == s.key && Trim(CurrentEndpoint(s)) == CurrentEndpoint(s) && Trim(CurrentModel(s)) == CurrentModel(s)
    ensures var f := OpenForm(s);
      ValidateInputs(f.key, f.endpoint, f.model) == Ok(Saved(s.key, CurrentEndpoint(s), CurrentModel(s)))
  {
  }
}
