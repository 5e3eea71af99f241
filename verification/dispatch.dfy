/**
 * The `startsWith` chains that pick a provider from a model name. The chat and bot
 * routes test "openai:", "gemini:", "llama:", "anthropic:" with a colon but "mixtral"
 * without one; the older api route tests "openai" and "gemini" without a colon.
 */
module Dispatch {
  import opened Common
  import opened LangchainServices

  /** The four streaming/invoking branches of the chat and bot routes. */
  datatype ChatProvider = OpenAIChat | GeminiChat | LlamaChat | AnthropicChat

  /** The chain of `/stream/:chatId` (routes/chat.js) and `/:botId/chat/:chatId/stream` (routes/bot.js). */
  function StreamProvider(modelName: string): Option<ChatProvider> {
    if StartsWith(modelName, "openai:") then Some(OpenAIChat)
    else if StartsWith(modelName, "gemini:") then Some(GeminiChat)
    else if StartsWith(modelName, "llama:") || StartsWith(modelName, "mixtral") then Some(LlamaChat)
    else if StartsWith(modelName, "anthropic:") then Some(AnthropicChat)
    else None
  }

  /** The branches of `/message` (routes/chat.js): the chat providers, then images. */
  datatype MessageRoute = ChatRoute(p: ChatProvider) | ImagegenRoute | DalleRoute | UnsupportedRoute

  function ChatMessageRoute(modelName: string): MessageRoute {
    match StreamProvider(modelName)
    case Some(p) => ChatRoute(p)
    case None =>
      if StartsWith(modelName, "imagegen:") then ImagegenRoute
      else if StartsWith(modelName, "dalle:") then DalleRoute
      else UnsupportedRoute
  }

  /** The branches of `/:botId/message` (routes/bot.js): "openai:" or "gemini:" invoke, "imagegen:" submits. */
  function BotMessageRoute(modelName: string): MessageRoute {
    if StartsWith(modelName, "openai:") then ChatRoute(OpenAIChat)
    else if StartsWith(modelName, "gemini:") then ChatRoute(GeminiChat)
    else if StartsWith(modelName, "imagegen:") then ImagegenRoute
    else UnsupportedRoute
  }

  /** The branches of the image routes: "imagegen:", then "dalle:". */
  function ImageRoute(modelName: string): MessageRoute {
    if StartsWith(modelName, "imagegen:") then ImagegenRoute
    else if StartsWith(modelName, "dalle:") then DalleRoute
    else UnsupportedRoute
  }

  /** The two branches of routes/api.js, tested without a colon. */
  datatype ApiProvider = ApiOpenAI | ApiGemini

  function ApiChatProvider(modelName: string): Option<ApiProvider> {
    if StartsWith(modelName, "openai") then Some(ApiOpenAI)
    else if StartsWith(modelName, "gemini") then Some(ApiGemini)
    else None
  }

  /** A name with `prefix` has the first character of `prefix`. */
  lemma FirstCharOfPrefix(s: string, prefix: string)
    requires |prefix| > 0 && StartsWith(s, prefix)
    ensures |s| > 0 && s[0] == prefix[0]
  {
    assert s[0] == s[..|prefix|][0];
  }

  /**
   * The colon distinction: "mixtral" needs no colon, while a name like "openai-gpt4"
   * or "gemini-pro" is refused by the chat chain although the api chain accepts it.
   */
  lemma ColonMatters(modelName: string)
    ensures StartsWith(modelName, "mixtral") ==> StreamProvider(modelName) == Some(LlamaChat)
    ensures StartsWith(modelName, "openai") && !StartsWith(modelName, "openai:") ==>
      StreamProvider(modelName) == None && ApiChatProvider(modelName) == Some(ApiOpenAI)
    ensures StartsWith(modelName, "gemini") && !StartsWith(modelName, "gemini:") ==>
      StreamProvider(modelName) == None && ApiChatProvider(modelName) == Some(ApiGemini)
  {
    if StartsWith(modelName, "mixtral") {
      FirstCharOfPrefix(modelName, "mixtral");
    }
    if StartsWith(modelName, "openai") {
      FirstCharOfPrefix(modelName, "openai");
    }
    if StartsWith(modelName, "gemini") {
      FirstCharOfPrefix(modelName, "gemini");
    }
  }

  /**
   * Of the four chat branches, only "openai:" can get a client with `stream`/`invoke`
   * from `getModelInstance`: "gemini:" gets the bare placeholder, and the llama,
   * mixtral and anthropic names are refused outright.
   */
  lemma OnlyOpenAIBranchGetsAClient(modelName: string, envKey: Option<string>, p: ChatProvider)
    requires StreamProvider(modelName) == Some(p)
    ensures GetModelInstance(modelName, envKey).Ok? && HasChatMethods(GetModelInstance(modelName, envKey).value)
      <==> p == OpenAIChat
    ensures p == GeminiChat ==> GetModelInstance(modelName, envKey) == Ok(GeminiPlaceholder(modelName))
    ensures p == LlamaChat || p == AnthropicChat ==> GetModelInstance(modelName, envKey) == Err("Model not supported.")
  {
    if p == OpenAIChat {
      assert modelName[..6] == modelName[..7][..6];
    } else if p == GeminiChat {
      assert modelName[..6] == modelName[..7][..6];
      FirstCharOfPrefix(modelName, "gemini:");
    } else {
      OtherRoutePrefixesUnsupported(modelName, envKey);
    }
  }
}
