/**
 * Authentication of bot requests by API key: the key is taken from the
 * `x-api-key` header, else the `apiKey` query parameter, else `api_key`; the first
 * bot whose stored `apiKey` equals it becomes `req.bot`.
 */
module BotApiKeyMiddleware {
  import opened Common
  import opened Store

  /** The three places a key may come from, as the request carries them. */
  datatype KeySources = KeySources(header: Option<string>, queryApiKey: Option<string>, queryApiKeySnake: Option<string>)

  /** `req.headers['x-api-key'] || req.query.apiKey || req.query.api_key`, when that value is truthy. */
  function PresentedKey(src: KeySources): (k: Option<string>)
    ensures k.Some? <==> Truthy(src.header) || Truthy(src.queryApiKey) || Truthy(src.queryApiKeySnake)
    ensures k.Some? ==> k.value != ""
    ensures Truthy(src.header) ==> k == src.header
    ensures !Truthy(src.header) && Truthy(src.queryApiKey) ==> k == src.queryApiKey
    ensures !Truthy(src.header) && !Truthy(src.queryApiKey) ==> k == (if Truthy(src.queryApiKeySnake) then src.queryApiKeySnake else None)
  {
    if Truthy(src.header) then src.header
    else if Truthy(src.queryApiKey) then src.queryApiKey
    else if Truthy(src.queryApiKeySnake) then src.queryApiKeySnake
    else None
  }

  /** The position of the first bot whose stored key is `key` (`docs[0]` of the `where` query). */
  function FirstWithKey(bots: seq<BotEntry>, key: string): (r: Option<nat>)
    ensures r.Some? ==> r.value < |bots| && bots[r.value].doc.apiKey == Some(key)
    ensures r.Some? ==> forall j :: 0 <= j < r.value ==> bots[j].doc.apiKey != Some(key)
    ensures r.None? ==> forall j :: 0 <= j < |bots| ==> bots[j].doc.apiKey != Some(key)
  {
    if |bots| == 0 then None
    else if bots[0].doc.apiKey == Some(key) then Some(0)
    else match FirstWithKey(bots[1..], key)
      case None => None
      case Some(i) => Some(i + 1)
  }

  /** `req.bot` as the middleware builds it. */
  datatype ReqBot = ReqBot(
    botId: string,
    systemContext: Option<string>,
    modelName: Option<string>,
    kwargs: Option<Kwargs>,
    ownerUserId: Option<string>,
    apiKey: string)

  /**
   * `botApiKeyMiddleware` given the contents of the `bots` collection in query order
   * (or the exception the query raised).
   */
  function AuthenticateBot(src: KeySources, bots: Lookup<seq<BotEntry>>): (g: Gate<ReqBot>)
    ensures PresentedKey(src).None? <==> g == Halt(401, "API key missing")
    ensures PresentedKey(src).Some? && bots.LookupFailed? <==> g == Halt(500, "Failed to authenticate API key")
    ensures PresentedKey(src).Some? && bots.Found? ==>
      (g == Halt(401, "Invalid API key") <==> forall j :: 0 <= j < |bots.value| ==> bots.value[j].doc.apiKey != PresentedKey(src))
    ensures g.Next? ==> PresentedKey(src).Some? && bots.Found?
    ensures g.Next? ==>
      exists i :: 0 <= i < |bots.value| && FirstWithKey(bots.value, PresentedKey(src).value) == Some(i) &&
        g.value == ReqBot(bots.value[i].id, bots.value[i].doc.systemContext, bots.value[i].doc.modelName,
                          bots.value[i].doc.kwargs, bots.value[i].doc.ownerUserId, PresentedKey(src).value)
  {
    match PresentedKey(src)
    case None => Halt(401, "API key missing")
    case Some(key) =>
      match bots
      case LookupFailed(_) => Halt(500, "Failed to authenticate API key")
      case Found(docs) =>
        match FirstWithKey(docs, key)
        case None => Halt(401, "Invalid API key")
        case Some(i) =>
          var b := docs[i];
          Next(ReqBot(b.id, b.doc.systemContext, b.doc.modelName, b.doc.kwargs, b.doc.ownerUserId, key))
  }

  /** The header wins over both query parameters. */
  lemma HeaderTakesPrecedence(src: KeySources, bots: seq<BotEntry>)
    requires Truthy(src.header)
    ensures AuthenticateBot(src, Found(bots)) == AuthenticateBot(src.(queryApiKey := None, queryApiKeySnake := None), Found(bots))
  {
  }

  /** When two bots share a key, the one earlier in query order is chosen. */
  lemma {:induction false} FirstMatchWins(bots: seq<BotEntry>, key: string, i: nat)
    requires i < |bots| && bots[i].doc.apiKey == Some(key)
    ensures FirstWithKey(bots, key).Some? && FirstWithKey(bots, key).value <= i
  {
    if bots[0].doc.apiKey != Some(key) {
      FirstMatchWins(bots[1..], key, i - 1);
    }
  }
}
