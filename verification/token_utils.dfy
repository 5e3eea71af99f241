/**
 * `calculateTokensUsedLangChain`: for an "openai" model, every message costs the
 * length of its encoding plus 4, the reply is primed with 2, and the response's
 * encoding is added; a "gemini" model costs 0 here (its count comes from the
 * provider's usage metadata); any other model name throws. The tokenizer is the
 * uninterpreted `encodeLen(modelName, text)`.
 */
module TokenUtils {
  import opened Common
  import opened LangchainServices

  type Encoder = (string, Field) -> nat

  /** The per-message part of the estimate: the sum over messages of encodeLen(content) + 4. */
  function MessagesCost(modelName: string, messages: seq<Entry>, encodeLen: Encoder): nat {
    if |messages| == 0 then 0
    else encodeLen(modelName, messages[0].content) + 4 + MessagesCost(modelName, messages[1..], encodeLen)
  }

  /** The whole estimate for an "openai" model. */
  function OpenAIEstimate(modelName: string, messages: seq<Entry>, response: string, encodeLen: Encoder): nat {
    MessagesCost(modelName, messages, encodeLen) + 2 + encodeLen(modelName, Str(response))
  }

  /** Appending one message raises the cost by exactly its encoding length plus 4. */
  lemma {:induction false} MessagesCostAppend(modelName: string, messages: seq<Entry>, m: Entry, encodeLen: Encoder)
    ensures MessagesCost(modelName, messages + [m], encodeLen)
      == MessagesCost(modelName, messages, encodeLen) + encodeLen(modelName, m.content) + 4
  {
    if |messages| > 0 {
      assert (messages + [m])[1..] == messages[1..] + [m];
      MessagesCostAppend(modelName, messages[1..], m, encodeLen);
    } else {
      assert (messages + [m])[1..] == [];
    }
  }

  /** Every message costs at least its 4 tokens of overhead. */
  lemma {:induction false} MessagesCostLowerBound(modelName: string, messages: seq<Entry>, encodeLen: Encoder)
    ensures MessagesCost(modelName, messages, encodeLen) >= 4 * |messages|
  {
    if |messages| > 0 {
      MessagesCostLowerBound(modelName, messages[1..], encodeLen);
    }
  }

  /** Hence the "openai" estimate is at least 4 per message plus 2. */
  lemma OpenAIEstimateLowerBound(modelName: string, messages: seq<Entry>, response: string, encodeLen: Encoder)
    ensures OpenAIEstimate(modelName, messages, response, encodeLen) >= 4 * |messages| + 2
  {
    MessagesCostLowerBound(modelName, messages, encodeLen);
  }

  /** The estimate the source computes, with its `forEach` accumulation as a loop. */
  method CalculateTokensUsed(model: ModelInstance, messages: seq<Entry>, response: string, encodeLen: Encoder)
    returns (r: Result<nat>)
    ensures StartsWith(model.modelName, "openai") ==> r == Ok(OpenAIEstimate(model.modelName, messages, response, encodeLen))
    ensures !StartsWith(model.modelName, "openai") && StartsWith(model.modelName, "gemini") ==> r == Ok(0)
    ensures !StartsWith(model.modelName, "openai") && !StartsWith(model.modelName, "gemini") ==>
      r == Err("Model not supported for token calculation.")
  {
    var modelName := model.modelName;
    var tokensUsed: nat := 0;
    if StartsWith(modelName, "openai") {
      var i := 0;
      while i < |messages|
        invariant 0 <= i <= |messages|
        invariant tokensUsed == MessagesCost(modelName, messages[..i], encodeLen)
      {
        MessagesCostAppend(modelName, messages[..i], messages[i], encodeLen);
        assert messages[..i + 1] == messages[..i] + [messages[i]];
        tokensUsed := tokensUsed + encodeLen(modelName, messages[i].content) + 4;
        i := i + 1;
      }
      assert messages[..i] == messages;
      tokensUsed := tokensUsed + 2;
      tokensUsed := tokensUsed + encodeLen(modelName, Str(response));
    } else if StartsWith(modelName, "gemini") {
      tokensUsed := 0;
    } else {
      return Err("Model not supported for token calculation.");
    }
    return Ok(tokensUsed);
  }
}
