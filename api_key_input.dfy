/** The API-key field of the first wizard step: the provider table, the
    component's own key check and the indicator it shows under the field. */
module ApiKeyInput {
  import opened Common
  import Api

  /** One entry of the provider picker. */
  datatype Provider = Provider(id: string, name: string, description: string, keyUrl: string, example: string)

  const Providers: seq<Provider> := [
    Provider("openai", "OpenAI", "GPT models (GPT-3.5, GPT-4)", "https://platform.openai.com/api-keys", "sk-..."),
    Provider("anthropic", "Anthropic", "Claude models", "https://console.anthropic.com/", "sk-ant-..."),
    Provider("gemini", "Google Gemini", "Gemini Pro models", "https://makersuite.google.com/app/apikey", "AIza...")
  ]

  /** `providers.find(p => p.id === id)`: the first entry with that id. */
  function FindProvider(providers: seq<Provider>, id: string): (r: Option<Provider>)
    ensures r.None? <==> forall k :: 0 <= k < |providers| ==> providers[k].id != id
    ensures r.Some? ==> r.value in providers && r.value.id == id
    ensures providers != [] && providers[0].id == id ==> r == Some(providers[0])
  {
    if providers == [] then None
    else if providers[0].id == id then Some(providers[0])
    else FindProvider(providers[1..], id)
  }

  /** The selected provider is found exactly for the three known ids. */
  lemma SelectedProviderKnown(id: string)
    ensures FindProvider(Providers, id).Some? <==> id in {"openai", "anthropic", "gemini"}
  {
  }

  /** The display names shown for the three ids. */
  lemma ProviderNames()
    ensures FindProvider(Providers, "openai") == Some(Providers[0]) && Providers[0].name == "OpenAI"
    ensures FindProvider(Providers, "anthropic") == Some(Providers[1]) && Providers[1].name == "Anthropic"
    ensures FindProvider(Providers, "gemini") == Some(Providers[2]) && Providers[2].name == "Google Gemini"
  {
    assert Providers[1..][0] == Providers[1];
    assert Providers[1..][1..][0] == Providers[2];
  }

  /** The component's own pattern table. */
  function Validations(id: string): (r: Option<Api.KeyPattern>)
    ensures r.Some? ==> FindProvider(Providers, id).Some?
  {
    match id
    case "openai" => Some(Api.KeyPattern("sk-", Api.Alnums, Api.AtLeast(32)))
    case "anthropic" => Some(Api.KeyPattern("sk-ant-", Api.AlnumsDashUnderscore, Api.AtLeast(32)))
    case "gemini" => Some(Api.KeyPattern("AIza", Api.AlnumsDashUnderscore, Api.Exactly(35)))
    case _ => None
  }

  /** The component's key check. A refused non-empty key is reported under
      the provider's display name; an id named like an inherited member
      makes the check throw, as the utilities' check does. */
  function ValidateApiKey(key: string, id: string): (r: Api.KeyCheck)
    ensures key == [] ==> r == Api.KeyCheck(false, Api.KeyRequired)
    ensures r.Thrown? <==> key != [] && id in Api.InheritedMembers
    ensures r.Thrown? ==> r.error == Api.NotAFunction
    ensures key != [] && r.KeyCheck? ==> (r.valid <==> (Validations(id).None? || Api.Matches(key, Validations(id).value)))
    ensures key != [] && r.KeyCheck? && !r.valid ==> r.message == "Invalid " + FindProvider(Providers, id).value.name + " API key format"
  {
    if key == [] then Api.KeyCheck(false, Api.KeyRequired)
    else if id in Api.InheritedMembers then Api.Thrown(Api.NotAFunction)
    else
      var pattern := Validations(id);
      if pattern.Some? && !Api.Matches(key, pattern.value) then
        Api.KeyCheck(false, "Invalid " + FindProvider(Providers, id).value.name + " API key format")
      else Api.KeyCheck(true, "")
  }

  /** The two pattern tables are the same table. */
  lemma PatternTablesAgree(id: string)
    ensures Validations(id) == Api.Patterns(id)
  {
  }

  /** The component and the client utilities accept the same keys and
      throw for the same ids. */
  lemma ValidatorsAgree(key: string, id: string)
    ensures ValidateApiKey(key, id).Thrown? == Api.ValidateApiKey(key, id).Thrown?
    ensures ValidateApiKey(key, id).KeyCheck? ==> ValidateApiKey(key, id).valid == Api.ValidateApiKey(key, id).valid
  {
    PatternTablesAgree(id);
  }

  /** What is shown under the key field. */
  datatype Indicator = Nothing | InvalidNotice(message: string) | ValidMark | RenderThrows(error: string)

  /** The notice is shown for a non-empty refused key, the check mark for a
      non-empty accepted one, and nothing for an empty field; a check that
      throws makes the component's render throw. */
  function IndicatorFor(key: string, id: string): (r: Indicator)
    ensures r.Nothing? <==> key == []
    ensures r.RenderThrows? <==> ValidateApiKey(key, id).Thrown?
    ensures r.ValidMark? <==> key != [] && ValidateApiKey(key, id) == Api.KeyCheck(true, "")
    ensures r.InvalidNotice? <==> key != [] && ValidateApiKey(key, id).KeyCheck? && !ValidateApiKey(key, id).valid
    ensures r.InvalidNotice? ==> r.message == ValidateApiKey(key, id).message
  {
    var check := ValidateApiKey(key, id);
    if check.Thrown? then RenderThrows(check.error)
    else
    var showInvalid := key != [] && !check.valid;
    var showValid := key != [] && check.valid;
    if showInvalid then InvalidNotice(check.message)
    else if showValid then ValidMark
    else Nothing
  }
}
