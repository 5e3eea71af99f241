/**
 * `GET /get-models`: the catalog chosen by the `model_type` query value. The caller's
 * tier is read and lowercased, but the filtering of pro models is switched off, so
 * the tier has no effect on the reply. The two catalogs are inputs.
 */
module ModelRoutes {
  import opened Common

  const NotSpecified: string := "Model type not specified."
  const InvalidType: string := "Invalid model type."

  /** `req.query.model_type` is falsy: missing or the empty string. */
  predicate MissingType(modelType: Field) {
    modelType.Absent? || modelType == Str("")
  }

  /** `(req.user.subscriptionTier || 'Free').toLowerCase()`: computed and never used. */
  function LoweredTier(tier: Option<string>): (r: string)
    ensures |r| == |OrElse(tier, "Free")|
  {
    ToLowerAscii(OrElse(tier, "Free"))
  }

  /**
   * The handler: 400 "Model type not specified." for a falsy value, the chat catalog
   * for exactly "chat", the image catalog for exactly "image", and 400
   * "Invalid model type." for anything else (another string, or a repeated query
   * parameter, which Express hands over as an array).
   */
  function GetModels<C>(modelType: Field, tier: Option<string>, modelsData: C, imageModelsData: C): (r: HttpReply<C>)
    ensures MissingType(modelType) <==> r == ErrorReply(400, NotSpecified, "model_type")
    ensures modelType == Str("chat") ==> r == Reply(modelsData)
    ensures modelType == Str("image") ==> r == Reply(imageModelsData)
    ensures !MissingType(modelType) && modelType != Str("chat") && modelType != Str("image") <==>
      r == ErrorReply(400, InvalidType, "model_type")
    ensures r.Reply? ==> r.body == modelsData || r.body == imageModelsData
  {
    if MissingType(modelType) then ErrorReply(400, NotSpecified, "model_type")
    else
      var _ := LoweredTier(tier);
      if modelType == Str("chat") then Reply(modelsData)
      else if modelType == Str("image") then Reply(imageModelsData)
      else ErrorReply(400, InvalidType, "model_type")
  }

  /** Every tier gets the same reply: the catalog comes back whole whatever the subscription. */
  lemma TierIgnored<C>(modelType: Field, tier1: Option<string>, tier2: Option<string>, modelsData: C, imageModelsData: C)
    ensures GetModels(modelType, tier1, modelsData, imageModelsData) == GetModels(modelType, tier2, modelsData, imageModelsData)
  {
  }
}
