/**
 * The older chat handler `POST /chat/:chatId`: the whole history, unfiltered, plus the
 * new message; dispatch on "openai"/"gemini" without a colon; the OpenAI token count
 * estimated from the prompt and the answer, the Gemini one taken from the provider's
 * usage; both messages committed in one batch before the count is incremented.
 */
module ApiRoutes {
  import opened Common
  import opened Store
  import opened LangchainServices
  import opened StreamRelay
  import opened TokenUtils
  import ChatRoutes

  const Failed: string := "Failed to process message."

  /** `modelMessages` of the api route: every history entry mapped to `{ role, content }`, then the message. */
  function ApiPrompt(history: seq<StoredMessage>, message: Option<string>): (r: seq<Entry>)
    ensures |r| == |history| + 1
    ensures forall i :: 0 <= i < |history| ==> r[i] == ChatRoutes.Project(history[i])
    ensures r[|history|] == Entry(Str("user"), FieldOf(message))
  {
    seq(|history|, i requires 0 <= i < |history| => ChatRoutes.Project(history[i])) + [Entry(Str("user"), FieldOf(message))]
  }

  /**
   * The two preparations differ only by the filter: on a history whose entries are
   * all usable and a non-blank message, the api prompt is the chat route's prompt.
   */
  lemma {:induction false} ApiPromptWithoutFilter(history: seq<StoredMessage>, message: Option<string>)
    requires forall i :: 0 <= i < |history| ==> ChatRoutes.Usable(ChatRoutes.Project(history[i]))
    requires NonBlank(message)
    ensures ApiPrompt(history, message) == ChatRoutes.PreparePrompt(history, message)
  {
    AllUsableKept(history);
    assert ApiPrompt(history, message)[..|history|] == ChatRoutes.PrepareHistory(history);
  }

  /** On a history whose entries are all usable the filter keeps every entry. */
  lemma {:induction false} AllUsableKept(history: seq<StoredMessage>)
    requires forall i :: 0 <= i < |history| ==> ChatRoutes.Usable(ChatRoutes.Project(history[i]))
    ensures |ChatRoutes.PrepareHistory(history)| == |history|
    ensures forall i :: 0 <= i < |history| ==> ChatRoutes.PrepareHistory(history)[i] == ChatRoutes.Project(history[i])
  {
    if |history| > 0 {
      var n := |history| - 1;
      var init := history[..n];
      assert forall i :: 0 <= i < n ==> init[i] == history[i];
      AllUsableKept(init);
      KeptLast(history);
    }
  }

  lemma KeptLast(history: seq<StoredMessage>)
    requires |history| > 0 && ChatRoutes.Usable(ChatRoutes.Project(history[|history| - 1]))
    ensures ChatRoutes.PrepareHistory(history)
      == ChatRoutes.PrepareHistory(history[..|history| - 1]) + [ChatRoutes.Project(history[|history| - 1])]
  {
  }

  /** What the Gemini SDK answers: `candidates[0].content` and `usage_metadata.total_token_count`. */
  datatype GeminiAnswer = GeminiAnswer(content: Field, totalTokenCount: TokenValue)

  /** The batch the handler commits: the user message, then the answer. */
  function ApiPair(message: Option<string>, answer: Field): seq<StoredMessage> {
    [StoredMessage(Str("user"), FieldOf(message), None, None), StoredMessage(Str("assistant"), answer, None, None)]
  }

  /**
   * `POST /chat/:chatId`. `call` is `model.call` of the OpenAI client and `geminiChat`
   * the Gemini SDK's chat session; both may throw. `saved` tells whether the batch was
   * committed: the increment comes after it, so a failed increment leaves the messages
   * saved and still answers 500.
   */
  method ApiChat(st: Store, uid: string, chatId: string, modelName: string, message: Option<string>, envKey: Option<string>,
                 call: (ModelInstance, seq<Entry>) -> Result<string>,
                 geminiChat: (string, seq<Entry>, Option<string>) -> Result<GeminiAnswer>,
                 encodeLen: Encoder)
    returns (r: HttpReply<Field>, saved: bool, answer: Field)
    modifies st
    ensures GetModelInstance(modelName, envKey).Err? ==> r == ErrorReply(500, Failed, "Model not supported.") && !saved
    ensures saved <==>
      var prompt := ApiPrompt(old(st.Messages(UserChat(uid, chatId))), message);
      (StartsWith(modelName, "openai") && call(OpenAI(modelName, envKey), prompt).Ok?)
      || (!StartsWith(modelName, "openai") && StartsWith(modelName, "gemini") && geminiChat(modelName, prompt, message).Ok?)
    ensures saved && StartsWith(modelName, "openai") ==>
      var prompt := ApiPrompt(old(st.Messages(UserChat(uid, chatId))), message);
      call(OpenAI(modelName, envKey), prompt).Ok? && answer == Str(call(OpenAI(modelName, envKey), prompt).value)
      && st.users == WithTokens(old(st.users), uid, Num(OpenAIEstimate(modelName, prompt, call(OpenAI(modelName, envKey), prompt).value, encodeLen)))
    ensures saved && !StartsWith(modelName, "openai") ==>
      var g := geminiChat(modelName, ApiPrompt(old(st.Messages(UserChat(uid, chatId))), message), message);
      g.Ok? && answer == g.value.content && st.users == WithTokens(old(st.users), uid, AsNumber(g.value.totalTokenCount))
    ensures saved ==>
      st.threads == old(st.threads)[UserChat(uid, chatId) := old(st.Messages(UserChat(uid, chatId))) + ApiPair(message, answer)]
    ensures !saved ==> st.threads == old(st.threads) && st.users == old(st.users)
    ensures r.Reply? <==> saved && uid in old(st.users)
    ensures r.Reply? ==> r.body == answer
  {
    saved, answer := false, Absent;
    var t := UserChat(uid, chatId);
    var prompt := ApiPrompt(st.Messages(t), message);
    var inst := GetModelInstance(modelName, envKey);
    if inst.Err? {
      return ErrorReply(500, Failed, inst.msg), saved, answer;
    }
    var tokens: JsNumber;
    if StartsWith(modelName, "openai") {
      var text := call(inst.value, prompt);
      if text.Err? {
        return ErrorReply(500, Failed, text.msg), saved, answer;
      }
      var estimate := CalculateTokensUsed(inst.value, prompt, text.value, encodeLen);
      answer, tokens := Str(text.value), Num(estimate.value);
    } else {
      // `getModelInstance` accepted the name, so it starts with "gemini": the final
      // "Model not supported." branch of the chain cannot be reached.
      var g := geminiChat(modelName, prompt, message);
      if g.Err? {
        return ErrorReply(500, Failed, g.msg), saved, answer;
      }
      answer, tokens := g.value.content, AsNumber(g.value.totalTokenCount);
    }
    st.AddBatch(t, ApiPair(message, answer));
    saved := true;
    var ok := st.IncrementTokens(uid, tokens);
    if !ok {
      return ErrorReply(500, Failed, "No document to update"), saved, answer;
    }
    r := Reply(answer);
  }
}
