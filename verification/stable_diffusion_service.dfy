/**
 * The image provider client: `generateImage` posts the prompt with a fixed set of
 * default generation options, overridden key by key by the caller's options;
 * `fetchImg` polls a job by id. The HTTP call is a parameter; its errors are
 * rethrown, never turned into a returned value.
 */
module StableDiffusionService {
  import opened Common

  const DefaultModelId: string := "sdxlceshi"

  /** `defaultOptions` of `generateImage`. */
  function DefaultOptions(): Kwargs {
    map[
      "negative_prompt" := JStr("painting, extra fingers, mutated hands..."),
      "width" := JNum(512.0),
      "height" := JNum(512.0),
      "samples" := JNum(1.0),
      "num_inference_steps" := JNum(30.0),
      "safety_checker" := JStr("no"),
      "enhance_prompt" := JStr("no"),
      "guidance_scale" := JNum(7.5),
      "panorama" := JStr("no"),
      "self_attention" := JStr("no"),
      "upscale" := JStr("no"),
      "scheduler" := JStr("UniPCMultistepScheduler"),
      "tomesd" := JStr("yes"),
      "use_karras_sigmas" := JStr("yes"),
      "vae" := JNull,
      "lora_model" := JNull,
      "lora_strength" := JNull,
      "seed" := JNull
    ]
  }

  /** `String(process.env.STABLE_DIFFUSION_API_KEY)`: an unset variable becomes the text "undefined". */
  function ApiKeyString(env: Option<string>): (k: string)
    ensures env.Some? ==> k == env.value
    ensures env.None? ==> k == "undefined"
  {
    match env
    case Some(v) => v
    case None => "undefined"
  }

  /** `{ ...defaultOptions, ...options }`, with `options` defaulting to `{}`. */
  function RequestOptions(options: Option<Kwargs>): (m: Kwargs)
    ensures m.Keys == DefaultOptions().Keys + options.GetOr(map[]).Keys
    ensures forall k :: k in options.GetOr(map[]) ==> m[k] == options.GetOr(map[])[k]
    ensures forall k :: k in DefaultOptions() && k !in options.GetOr(map[]) ==> m[k] == DefaultOptions()[k]
  {
    DefaultOptions() + options.GetOr(map[])
  }

  /**
   * The body `generateImage` posts: `{ key, model_id, prompt, ...requestOptions }`. An
   * undefined `modelId` takes its default; an undefined prompt is dropped when the body
   * is serialised.
   */
  function GenerateImageBody(env: Option<string>, prompt: Option<string>, modelId: Option<string>, options: Option<Kwargs>): (body: Kwargs)
    ensures body.Keys == {"key", "model_id"} + (if prompt.Some? then {"prompt"} else {}) + RequestOptions(options).Keys
    ensures forall k :: k in RequestOptions(options) ==> body[k] == RequestOptions(options)[k]
    ensures "key" !in RequestOptions(options) ==> body["key"] == JStr(ApiKeyString(env))
    ensures "model_id" !in RequestOptions(options) ==> body["model_id"] == JStr(modelId.GetOr(DefaultModelId))
    ensures "prompt" !in RequestOptions(options) && prompt.Some? ==> body["prompt"] == JStr(prompt.value)
  {
    var fixed := map["key" := JStr(ApiKeyString(env)), "model_id" := JStr(modelId.GetOr(DefaultModelId))];
    var withPrompt := if prompt.Some? then fixed["prompt" := JStr(prompt.value)] else fixed;
    withPrompt + RequestOptions(options)
  }

  /** No default option shadows a fixed field: only the caller's options can. */
  lemma FixedFieldsNotDefaulted(options: Option<Kwargs>)
    ensures forall k :: k in {"key", "model_id", "prompt"} ==> (k in RequestOptions(options) <==> k in options.GetOr(map[]))
  {
    assert "key" !in DefaultOptions() && "model_id" !in DefaultOptions() && "prompt" !in DefaultOptions();
  }

  /** The body `fetchImg` posts: exactly the key and the request id. */
  function FetchBody(env: Option<string>, requestId: Option<string>): (body: Kwargs)
    ensures body.Keys == if requestId.Some? then {"key", "request_id"} else {"key"}
    ensures body["key"] == JStr(ApiKeyString(env))
    ensures requestId.Some? ==> body["request_id"] == JStr(requestId.value)
  {
    var b := map["key" := JStr(ApiKeyString(env))];
    match requestId
    case Some(id) => b["request_id" := JStr(id)]
    case None => b
  }

  /** `response.data` of the provider, as far as the routes read it. */
  datatype SdReply = SdReply(status: Option<string>, id: Option<string>, imageUrl: Option<string>, output: seq<string>)

  /** The outcome of `axios.post`: the response data, or the error it throws. */
  datatype Posted = Posted(data: SdReply) | PostFailed(message: string)

  /** `generateImage(prompt, modelId, options)` over the HTTP call `post`. */
  function GenerateImage(env: Option<string>, prompt: Option<string>, modelId: Option<string>, options: Option<Kwargs>,
                         post: Kwargs -> Posted): (r: Result<SdReply>)
    ensures post(GenerateImageBody(env, prompt, modelId, options)).Posted? <==> r.Ok?
    ensures r.Ok? ==> r.value == post(GenerateImageBody(env, prompt, modelId, options)).data
    ensures r.Err? ==> r.msg == post(GenerateImageBody(env, prompt, modelId, options)).message
  {
    match post(GenerateImageBody(env, prompt, modelId, options))
    case Posted(data) => Ok(data)
    case PostFailed(m) => Err(m)
  }

  /** `fetchImg(request_id)` over the HTTP call `post`. */
  function FetchImg(env: Option<string>, requestId: Option<string>, post: Kwargs -> Posted): (r: Result<SdReply>)
    ensures post(FetchBody(env, requestId)).Posted? <==> r.Ok?
    ensures r.Ok? ==> r.value == post(FetchBody(env, requestId)).data
    ensures r.Err? ==> r.msg == post(FetchBody(env, requestId)).message
  {
    match post(FetchBody(env, requestId))
    case Posted(data) => Ok(data)
    case PostFailed(m) => Err(m)
  }

  /** Without caller options the body carries the documented defaults: 512x512, one sample, 30 steps. */
  lemma DefaultsWithoutOptions(env: Option<string>, prompt: string)
    ensures GenerateImageBody(env, Some(prompt), None, None)["model_id"] == JStr("sdxlceshi")
    ensures GenerateImageBody(env, Some(prompt), None, None)["width"] == JNum(512.0)
    ensures GenerateImageBody(env, Some(prompt), None, None)["height"] == JNum(512.0)
    ensures GenerateImageBody(env, Some(prompt), None, None)["samples"] == JNum(1.0)
    ensures GenerateImageBody(env, Some(prompt), None, None)["num_inference_steps"] == JNum(30.0)
    ensures GenerateImageBody(env, Some(prompt), None, None)["prompt"] == JStr(prompt)
  {
    FixedFieldsNotDefaulted(None);
    var d := DefaultOptions();
    assert "width" in d && d["width"] == JNum(512.0);
    assert "height" in d && d["height"] == JNum(512.0);
    assert "samples" in d && d["samples"] == JNum(1.0);
    assert "num_inference_steps" in d && d["num_inference_steps"] == JNum(30.0);
    var m := RequestOptions(None);
    assert m["width"] == d["width"] && m["height"] == d["height"];
    assert m["samples"] == d["samples"] && m["num_inference_steps"] == d["num_inference_steps"];
  }

  /** An option named like a fixed field replaces it: the spread comes last. */
  lemma OptionsOverrideFixedFields(env: Option<string>, prompt: Option<string>, modelId: Option<string>, opts: Kwargs)
    requires "prompt" in opts
    ensures GenerateImageBody(env, prompt, modelId, Some(opts))["prompt"] == opts["prompt"]
  {
  }
}
