/**
 * `getModelInstance`: a model name starting with "openai" gives an OpenAI client for
 * that name, one starting with "gemini" a placeholder that carries only the name
 * (no `stream`, no `invoke`), and every other name throws. The function takes the
 * name alone: the `kwargs` some routes pass as a second argument are ignored.
 */
module LangchainServices {
  import opened Common

  datatype ModelInstance = OpenAI(modelName: string, openAIApiKey: Option<string>) | GeminiPlaceholder(modelName: string)

  /** Whether the instance has the `stream` and `invoke` methods the routes call. */
  predicate HasChatMethods(m: ModelInstance) {
    m.OpenAI?
  }

  /** `getModelInstance(modelName)`, with `process.env.OPENAI_API_KEY` passed in as `envKey`. */
  function GetModelInstance(modelName: string, envKey: Option<string>): (r: Result<ModelInstance>)
    ensures r.Ok? ==> r.value.modelName == modelName
    ensures StartsWith(modelName, "openai") <==> r == Ok(OpenAI(modelName, envKey))
    ensures r.Ok? && r.value.GeminiPlaceholder? <==> !StartsWith(modelName, "openai") && StartsWith(modelName, "gemini")
    ensures r.Err? <==> !StartsWith(modelName, "openai") && !StartsWith(modelName, "gemini")
    ensures r.Err? ==> r.msg == "Model not supported."
  {
    if StartsWith(modelName, "openai") then Ok(OpenAI(modelName, envKey))
    else if StartsWith(modelName, "gemini") then Ok(GeminiPlaceholder(modelName))
    else Err("Model not supported.")
  }

  /** A name of one of the other prefixes the routes dispatch on is refused here. */
  lemma OtherRoutePrefixesUnsupported(modelName: string, envKey: Option<string>)
    requires StartsWith(modelName, "llama:") || StartsWith(modelName, "mixtral") || StartsWith(modelName, "anthropic:")
      || StartsWith(modelName, "imagegen:") || StartsWith(modelName, "dalle:")
    ensures GetModelInstance(modelName, envKey) == Err("Model not supported.")
  {
    assert modelName[0] != 'o' && modelName[0] != 'g' by {
      assert modelName[0] == modelName[..1][0];
    }
  }

  /** Only an "openai" name yields an instance the routes can stream from or invoke. */
  lemma OnlyOpenAIHasChatMethods(modelName: string, envKey: Option<string>)
    ensures (GetModelInstance(modelName, envKey).Ok? && HasChatMethods(GetModelInstance(modelName, envKey).value))
      <==> StartsWith(modelName, "openai")
  {
  }
}
