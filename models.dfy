/** The choice of language-model back end (`get_model`). The client constructors
    themselves are not modelled; only which names are accepted and the error
    raised for any other name. */
module Models {
  import opened Wrappers

  datatype Backend = OpenAi | Anthropic | GoogleGenai

  const UnknownModelPrefix: string := "Unknown model: "

  /** `get_model`: the back end a model name selects, or the `ValueError` text. */
  function GetModel(name: string): (r: Result<Backend, string>)
    ensures r.Ok? <==> name in {"openai", "anthropic", "google_genai"}
    ensures r.Err? ==> r.error == UnknownModelPrefix + name
    ensures r == Ok(OpenAi) <==> name == "openai"
  {
    if name == "openai" then Ok(OpenAi)
    else if name == "anthropic" then Ok(Anthropic)
    else if name == "google_genai" then Ok(GoogleGenai)
    else Err(UnknownModelPrefix + name)
  }
}
