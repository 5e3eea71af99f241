/**
 * The bot routes: create and update with their validation and defaults, the guard that
 * the URL's bot id is the authenticated bot's, the bot stream with its message
 * validation, the one-shot `/message`, image submission and polling, and the
 * code-snippet language selection.
 */
module BotRoutes {
  import opened Common
  import opened Store
  import opened LangchainServices
  import opened StableDiffusionService
  import opened StreamRelay
  import opened Dispatch
  import opened BotApiKeyMiddleware

  const DefaultBotModel: string := "openai:gpt-3.5-turbo"

  /** The body of `POST /` and `PUT /:botId`. */
  datatype BotInput = BotInput(botName: Option<string>, systemContext: Option<string>, modelName: Option<string>, kwargs: Option<Kwargs>)

  /** The checks shared by create and update: a non-blank name, then a truthy system context. */
  function ValidateBotInput(inp: BotInput): Option<string> {
    if !NonBlank(inp.botName) then Some("Bot name is required")
    else if !Truthy(inp.systemContext) then Some("System context is required")
    else None
  }

  /** The stored fields both handlers write: the name trimmed, the model and kwargs defaulted. */
  function BotFields(inp: BotInput, apiKey: Option<string>, ownerUserId: Option<string>): BotDoc
    requires inp.botName.Some?
  {
    BotDoc(Some(Trim(inp.botName.value)), inp.systemContext, apiKey, ownerUserId,
           Some(OrElse(inp.modelName, DefaultBotModel)), Some(inp.kwargs.GetOr(map[])))
  }

  /** `POST /`: the document added for a new bot, with a fresh API key and the caller as owner. */
  function CreateBot(inp: BotInput, ownerUid: string, apiKey: string): (r: Checked<BotDoc>)
    ensures r.Valid? <==> NonBlank(inp.botName) && Truthy(inp.systemContext)
    ensures !NonBlank(inp.botName) ==> r == Invalid(400, "Bot name is required")
    ensures NonBlank(inp.botName) && !Truthy(inp.systemContext) ==> r == Invalid(400, "System context is required")
    ensures r.Valid? ==> r.value.botName == Some(Trim(inp.botName.value)) && NonBlank(r.value.botName)
    ensures r.Valid? ==> Trim(r.value.botName.value) == r.value.botName.value
    ensures r.Valid? ==> r.value.systemContext == inp.systemContext && Truthy(r.value.systemContext)
    ensures r.Valid? ==> r.value.apiKey == Some(apiKey) && r.value.ownerUserId == Some(ownerUid)
    ensures r.Valid? ==> r.value.modelName == Some(if Truthy(inp.modelName) then inp.modelName.value else DefaultBotModel)
    ensures r.Valid? ==> r.value.kwargs == Some(if inp.kwargs.Some? then inp.kwargs.value else map[])
  {
    match ValidateBotInput(inp)
    case Some(e) => Invalid(400, e)
    case None =>
      TrimIdempotent(inp.botName.value);
      Valid(BotFields(inp, Some(apiKey), Some(ownerUid)))
  }

  /**
   * `PUT /:botId`: the same checks, then 404 for a missing bot; the name, context,
   * model and kwargs are replaced and every other field and every other bot kept.
   * There is no owner check.
   */
  function UpdateBot(bots: map<string, BotDoc>, botId: string, inp: BotInput): (r: Checked<map<string, BotDoc>>)
    ensures ValidateBotInput(inp).Some? ==> r == Invalid(400, ValidateBotInput(inp).value)
    ensures ValidateBotInput(inp).None? && botId !in bots ==> r == Invalid(404, "Bot not found")
    ensures r.Valid? <==> ValidateBotInput(inp).None? && botId in bots
    ensures r.Valid? ==> r.value.Keys == bots.Keys
    ensures r.Valid? ==> forall id :: id in bots && id != botId ==> r.value[id] == bots[id]
    ensures r.Valid? ==> r.value[botId].apiKey == bots[botId].apiKey && r.value[botId].ownerUserId == bots[botId].ownerUserId
  {
    match ValidateBotInput(inp)
    case Some(e) => Invalid(400, e)
    case None =>
      if botId !in bots then Invalid(404, "Bot not found")
      else Valid(bots[botId := BotFields(inp, bots[botId].apiKey, bots[botId].ownerUserId)])
  }

  /** Update applies exactly the validation and defaults of create, keeping the bot's key and owner. */
  lemma UpdateAgreesWithCreate(bots: map<string, BotDoc>, botId: string, inp: BotInput, ownerUid: string, apiKey: string)
    requires botId in bots
    ensures UpdateBot(bots, botId, inp).Valid? <==> CreateBot(inp, ownerUid, apiKey).Valid?
    ensures UpdateBot(bots, botId, inp).Invalid? ==>
      UpdateBot(bots, botId, inp).status == CreateBot(inp, ownerUid, apiKey).status
      && UpdateBot(bots, botId, inp).error == CreateBot(inp, ownerUid, apiKey).error
    ensures UpdateBot(bots, botId, inp).Valid? ==>
      UpdateBot(bots, botId, inp).value[botId] ==
        CreateBot(inp, ownerUid, apiKey).value.(apiKey := bots[botId].apiKey, ownerUserId := bots[botId].ownerUserId)
  {
  }

  /** Repeating an update changes nothing more. */
  lemma UpdateIdempotent(bots: map<string, BotDoc>, botId: string, inp: BotInput)
    requires UpdateBot(bots, botId, inp).Valid?
    ensures UpdateBot(UpdateBot(bots, botId, inp).value, botId, inp) == UpdateBot(bots, botId, inp)
  {
    var m := UpdateBot(bots, botId, inp).value;
    assert m[botId := BotFields(inp, m[botId].apiKey, m[botId].ownerUserId)] == m;
  }

  /** `if (botId !== req.bot.botId) return 403`: the guard of every bot route that names a bot in its URL. */
  function BotIdGuard(urlBotId: string, rb: ReqBot): (g: Gate<ReqBot>)
    ensures g.Next? <==> urlBotId == rb.botId
    ensures g.Next? ==> g.value == rb
    ensures g.Halt? ==> g == Halt(403, "Bot ID mismatch")
  {
    if urlBotId != rb.botId then Halt(403, "Bot ID mismatch") else Next(rb)
  }

  /** The bot's owner has a user document (`ownerUserId` is set and `users/{ownerUserId}` exists). */
  predicate OwnerExists(rb: ReqBot, users: map<string, UserDoc>) {
    rb.ownerUserId.Some? && rb.ownerUserId.value in users
  }

  /** `{ role: "system", content: systemContext }`. */
  function SystemEntry(systemContext: Option<string>): Entry {
    Entry(Str("system"), FieldOf(systemContext))
  }

  /**
   * A message of the stream request body. `content` is `Absent` for any falsy
   * non-string (undefined, null, 0, false) and `NonString` for a truthy one.
   */
  datatype ReqMessage = ReqMessage(role: Option<string>, content: Field)

  /** How the validation loop treats one message. */
  datatype Verdict = Accept | Reject | Throw

  /**
   * `!message.role || !message.content || message.content.trim() === ""`: a falsy role
   * or content, or blank text, rejects; a truthy non-string content has no `trim` and
   * throws.
   */
  function CheckMessage(m: ReqMessage): (v: Verdict)
    ensures v == Accept <==> Truthy(m.role) && m.content.Str? && Trim(m.content.s) != ""
    ensures v == Throw <==> Truthy(m.role) && m.content.NonString?
  {
    if !Truthy(m.role) then Reject
    else match m.content
      case Absent => Reject
      case Str(s) => if s == "" || Trim(s) == "" then Reject else Accept
      case NonString => Throw
  }

  function ProjectRequest(m: ReqMessage): Entry {
    Entry(FieldOf(m.role), m.content)
  }

  /** The stream prompt: the system message, then the request messages in order. */
  function BotPrompt(systemContext: Option<string>, ms: seq<ReqMessage>): seq<Entry> {
    if |ms| == 0 then [SystemEntry(systemContext)]
    else BotPrompt(systemContext, ms[..|ms| - 1]) + [ProjectRequest(ms[|ms| - 1])]
  }

  lemma {:induction false} BotPromptShape(systemContext: Option<string>, ms: seq<ReqMessage>)
    ensures |BotPrompt(systemContext, ms)| == |ms| + 1
    ensures BotPrompt(systemContext, ms)[0] == SystemEntry(systemContext)
    ensures forall i :: 0 <= i < |ms| ==> BotPrompt(systemContext, ms)[i + 1] == ProjectRequest(ms[i])
  {
    if |ms| > 0 {
      BotPromptShape(systemContext, ms[..|ms| - 1]);
    }
  }

  /** The verdict of the first message that does not pass, or `Accept` when all do. */
  function FirstVerdict(ms: seq<ReqMessage>): Verdict {
    if |ms| == 0 then Accept
    else if CheckMessage(ms[0]) != Accept then CheckMessage(ms[0])
    else FirstVerdict(ms[1..])
  }

  /** `FirstVerdict` is `Accept` exactly when every message passes. */
  lemma {:induction false} FirstVerdictAcceptsAll(ms: seq<ReqMessage>)
    ensures FirstVerdict(ms) == Accept <==> forall i :: 0 <= i < |ms| ==> CheckMessage(ms[i]) == Accept
  {
    if |ms| > 0 {
      var tail := ms[1..];
      FirstVerdictAcceptsAll(tail);
      assert forall i :: 0 <= i < |tail| ==> tail[i] == ms[i + 1];
      if CheckMessage(ms[0]) == Accept && FirstVerdict(tail) != Accept {
        var k :| 0 <= k < |tail| && CheckMessage(tail[k]) != Accept;
        assert CheckMessage(ms[k + 1]) != Accept;
      }
    }
  }

  /** `FirstVerdict` is the verdict of the first message that does not pass. */
  lemma {:induction false} FirstVerdictIsFirstFailure(ms: seq<ReqMessage>, i: nat)
    requires i < |ms| && CheckMessage(ms[i]) != Accept
    requires forall j :: 0 <= j < i ==> CheckMessage(ms[j]) == Accept
    ensures FirstVerdict(ms) == CheckMessage(ms[i])
  {
    if i > 0 {
      var tail := ms[1..];
      assert CheckMessage(ms[0]) == Accept;
      assert tail[i - 1] == ms[i];
      forall j | 0 <= j < i - 1
        ensures CheckMessage(tail[j]) == Accept
      {
        assert tail[j] == ms[j + 1];
      }
      FirstVerdictIsFirstFailure(tail, i - 1);
    }
  }

  /** One step of `FirstVerdict` along a suffix. */
  lemma FirstVerdictAt(ms: seq<ReqMessage>, i: nat)
    requires i < |ms|
    ensures FirstVerdict(ms[i..]) == if CheckMessage(ms[i]) != Accept then CheckMessage(ms[i]) else FirstVerdict(ms[i + 1..])
  {
    assert ms[i..][0] == ms[i] && ms[i..][1..] == ms[i + 1..];
  }

  /**
   * The push loop of the stream handler: the prompt when every message passes, else
   * the verdict of the first message that does not (a 400 or a throw), in which case
   * no prompt is used.
   */
  method BuildBotPrompt(systemContext: Option<string>, ms: seq<ReqMessage>) returns (v: Verdict, prompt: seq<Entry>)
    ensures v == Accept <==> forall i :: 0 <= i < |ms| ==> CheckMessage(ms[i]) == Accept
    ensures v == FirstVerdict(ms)
    ensures v == Accept ==> prompt == BotPrompt(systemContext, ms)
    ensures v != Accept ==>
      exists i :: 0 <= i < |ms| && v == CheckMessage(ms[i]) && forall j :: 0 <= j < i ==> CheckMessage(ms[j]) == Accept
  {
    prompt := [SystemEntry(systemContext)];
    var i := 0;
    while i < |ms|
      invariant 0 <= i <= |ms|
      invariant forall j :: 0 <= j < i ==> CheckMessage(ms[j]) == Accept
      invariant prompt == BotPrompt(systemContext, ms[..i])
      invariant FirstVerdict(ms[i..]) == FirstVerdict(ms)
    {
      var c := CheckMessage(ms[i]);
      FirstVerdictAt(ms, i);
      if c != Accept {
        assert 0 <= i < |ms| && c == CheckMessage(ms[i]);
        return c, prompt;
      }
      forall j | 0 <= j < i + 1
        ensures CheckMessage(ms[j]) == Accept
      {
        if j == i {
          assert c == CheckMessage(ms[j]);
        }
      }
      assert ms[..i + 1][..i] == ms[..i];
      prompt := prompt + [ProjectRequest(ms[i])];
      i := i + 1;
    }
    assert ms[..i] == ms && ms[i..] == [];
    v := Accept;
  }

  /** The document saved for a request message: its role and content as sent. */
  function SavedRequest(m: ReqMessage): StoredMessage {
    StoredMessage(FieldOf(m.role), m.content, None, None)
  }

  function SavedRequests(ms: seq<ReqMessage>): (r: seq<StoredMessage>)
    ensures |r| == |ms|
    ensures forall i :: 0 <= i < |ms| ==> r[i] == SavedRequest(ms[i])
  {
    seq(|ms|, i requires 0 <= i < |ms| => SavedRequest(ms[i]))
  }

  const EmptyMessages: string := "Messages array is required and cannot be empty"
  const BadMessage: string := "Each message must have a role and non-empty content"

  /**
   * `POST /:botId/chat/:chatId/stream`. The empty-array and mismatch checks answer
   * with JSON. A failure after them lands in a `catch` that writes an object, which
   * itself throws: the response is left open and nothing is saved. Only an
   * "openai:" model has a client with `stream`. After a full stream the owner's
   * `tokenCount` is incremented, each request message saved in order, then the
   * assistant text.
   */
  method BotStream(st: Store, botId: string, chatId: string, rb: ReqBot, messages: Option<seq<ReqMessage>>,
                   envKey: Option<string>, provider: (ModelInstance, seq<Entry>) -> ProviderStream)
    returns (r: StreamReply)
    modifies st
    ensures messages.None? || messages == Some([]) ==> r == ErrorJson(400, EmptyMessages, "")
    ensures messages.Some? && |messages.value| > 0 && botId != rb.botId ==> r == ErrorJson(403, "Bot ID mismatch", "")
    ensures r == ErrorJson(400, BadMessage, "") ==>
      messages.Some? && exists i :: 0 <= i < |messages.value| && CheckMessage(messages.value[i]) == Reject
    ensures (messages.Some? && |messages.value| > 0 && botId == rb.botId && OwnerExists(rb, old(st.users))
             && FirstVerdict(messages.value) == Reject) ==> r == ErrorJson(400, BadMessage, "")
    ensures r.Streamed? <==>
      (messages.Some? && |messages.value| > 0 && botId == rb.botId && OwnerExists(rb, old(st.users))
       && (forall i :: 0 <= i < |messages.value| ==> CheckMessage(messages.value[i]) == Accept)
       && rb.modelName.Some? && StartsWith(rb.modelName.value, "openai:")
       && var s := provider(OpenAI(rb.modelName.value, envKey), BotPrompt(rb.systemContext, messages.value));
          !s.fails && Consumed(s.chunks) == |s.chunks|)
    ensures r.Streamed? ==>
      messages.Some? && |messages.value| > 0 && botId == rb.botId && OwnerExists(rb, old(st.users))
      && (forall i :: 0 <= i < |messages.value| ==> CheckMessage(messages.value[i]) == Accept)
      && rb.modelName.Some? && StartsWith(rb.modelName.value, "openai:")
    ensures r.Streamed? ==>
      var s := provider(OpenAI(rb.modelName.value, envKey), BotPrompt(rb.systemContext, messages.value));
      !s.fails && Consumed(s.chunks) == |s.chunks| && r.body == Concat(Pieces(s.chunks))
      && st.users == WithTokens(old(st.users), rb.ownerUserId.value, UsageTotal(s.chunks))
    ensures r.Streamed? ==>
      st.threads == old(st.threads)[BotChat(botId, chatId) :=
        old(st.Messages(BotChat(botId, chatId))) + SavedRequests(messages.value) + [Plain("assistant", r.body)]]
    ensures !r.Streamed? ==> st.users == old(st.users) && st.threads == old(st.threads)
  {
    if messages.None? || |messages.value| == 0 {
      return ErrorJson(400, EmptyMessages, "");
    }
    var ms := messages.value;
    if BotIdGuard(botId, rb).Halt? {
      return ErrorJson(403, "Bot ID mismatch", "");
    }
    if !OwnerExists(rb, st.users) {
      return LeftOpen;
    }
    var v, prompt := BuildBotPrompt(rb.systemContext, ms);
    if v == Reject {
      return ErrorJson(400, BadMessage, "");
    } else if v == Throw {
      return LeftOpen;
    }
    if rb.modelName.None? {
      return LeftOpen;
    }
    r := RunBotStream(st, rb.ownerUserId.value, BotChat(botId, chatId), ms, prompt, rb.modelName.value, envKey, provider);
  }

  /**
   * The stream handler once the request is accepted: the client, the relay and, after
   * a full stream, the writes. Any failure leaves the response open with nothing saved.
   */
  method RunBotStream(st: Store, owner: string, t: Thread, ms: seq<ReqMessage>, prompt: seq<Entry>, modelName: string,
                      envKey: Option<string>, provider: (ModelInstance, seq<Entry>) -> ProviderStream)
    returns (r: StreamReply)
    requires |ms| > 0
    modifies st
    ensures r.Streamed? || r == LeftOpen
    ensures r.Streamed? <==>
      StartsWith(modelName, "openai:") &&
      var s := provider(OpenAI(modelName, envKey), prompt);
      !s.fails && Consumed(s.chunks) == |s.chunks|
    ensures r.Streamed? ==>
      var s := provider(OpenAI(modelName, envKey), prompt);
      !s.fails && Consumed(s.chunks) == |s.chunks| && r.body == Concat(Pieces(s.chunks))
      && st.users == WithTokens(old(st.users), owner, UsageTotal(s.chunks))
    ensures r.Streamed? ==> st.threads == old(st.threads)[t := old(st.Messages(t)) + SavedRequests(ms) + [Plain("assistant", r.body)]]
    ensures !r.Streamed? ==> st.users == old(st.users) && st.threads == old(st.threads)
  {
    if StreamProvider(modelName) == Some(OpenAIChat) {
      OnlyOpenAIBranchGetsAClient(modelName, envKey, OpenAIChat);
    }
    var inst := GetModelInstance(modelName, envKey);
    if inst.Err? || StreamProvider(modelName) != Some(OpenAIChat) {
      // The gemini placeholder has no `stream`; no other branch has a client.
      return LeftOpen;
    }
    assert StartsWith(modelName, "openai:");
    var o := RelayStandard(provider(inst.value, prompt));
    if o.failed {
      return LeftOpen;
    }
    r := SaveBotStream(st, owner, t, ms, o);
  }

  /** The writes after a completed bot stream: the increment, each request message, the reply. */
  method SaveBotStream(st: Store, owner: string, t: Thread, ms: seq<ReqMessage>, o: Relayed) returns (r: StreamReply)
    requires |ms| > 0
    modifies st
    ensures r == Streamed(o.text)
    ensures st.users == WithTokens(old(st.users), owner, o.tokens)
    ensures st.threads == old(st.threads)[t := old(st.Messages(t)) + SavedRequests(ms) + [Plain("assistant", o.text)]]
  {
    var _ := st.IncrementTokens(owner, o.tokens);
    st.AddEach(t, SavedRequests(ms));
    st.Add(t, Plain("assistant", o.text));
    r := Streamed(o.text);
  }

  /** `response.id || response.imageUrl`. */
  function IdOrUrl(d: SdReply): Option<string> {
    if Truthy(d.id) then d.id else d.imageUrl
  }

  /** The two documents `/:botId/message` saves in the bot's own `messages`. */
  function InboxPair(message: string, reply: Option<string>): seq<StoredMessage> {
    [Plain("user", message), StoredMessage(Str("assistant"), FieldOf(reply), None, None)]
  }

  /**
   * `POST /:botId/message`: checks the message, the bot id and the owner, then an
   * "openai:"/"gemini:" model is invoked with the system message and the message (its
   * `total_tokens` added to the owner's count) or an "imagegen:" model submits a job
   * (the owner's image count incremented); the message and reply are then saved.
   */
  method BotMessage(st: Store, botId: string, rb: ReqBot, message: Option<string>, envKey: Option<string>,
                    sdEnv: Option<string>, invoke: (ModelInstance, seq<Entry>) -> Result<Chunk>, post: Kwargs -> Posted)
    returns (r: HttpReply<Option<string>>)
    modifies st
    ensures !NonBlank(message) ==> r == ErrorReply(400, "Message is required", "")
    ensures NonBlank(message) && botId != rb.botId ==> r == ErrorReply(403, "Bot ID mismatch", "")
    ensures NonBlank(message) && botId == rb.botId && !OwnerExists(rb, old(st.users)) ==> r.ErrorReply? && r.status == 500
    ensures r.Reply? ==> NonBlank(message) && botId == rb.botId && OwnerExists(rb, old(st.users)) && rb.modelName.Some?
    ensures r.Reply? ==> BotMessageRoute(rb.modelName.value) in {ChatRoute(OpenAIChat), ImagegenRoute}
    ensures r.Reply? <==>
      (NonBlank(message) && botId == rb.botId && OwnerExists(rb, old(st.users)) && rb.modelName.Some? &&
       ((BotMessageRoute(rb.modelName.value) == ChatRoute(OpenAIChat)
         && ReadInvocation(invoke(OpenAI(rb.modelName.value, envKey), [SystemEntry(rb.systemContext), Entry(Str("user"), Str(message.value))])).Ok?)
        || (BotMessageRoute(rb.modelName.value) == ImagegenRoute
         && GenerateImage(sdEnv, message, SecondColonField(rb.modelName.value), None, post).Ok?)))
    ensures r.Reply? && BotMessageRoute(rb.modelName.value).ChatRoute? ==>
      var rd := ReadInvocation(invoke(OpenAI(rb.modelName.value, envKey), [SystemEntry(rb.systemContext), Entry(Str("user"), Str(message.value))]));
      rd.Ok? && r.body == rd.value.0 && st.users == WithTokens(old(st.users), rb.ownerUserId.value, AsNumber(rd.value.1))
    ensures r.Reply? && BotMessageRoute(rb.modelName.value) == ImagegenRoute ==>
      var g := GenerateImage(sdEnv, message, SecondColonField(rb.modelName.value), None, post);
      g.Ok? && r.body == IdOrUrl(g.value) && st.users == WithImage(old(st.users), rb.ownerUserId.value)
    ensures r.Reply? ==>
      st.threads == old(st.threads)[BotInbox(botId) := old(st.Messages(BotInbox(botId))) + InboxPair(message.value, r.body)]
    ensures !r.Reply? ==> st.users == old(st.users) && st.threads == old(st.threads)
  {
    if !NonBlank(message) {
      return ErrorReply(400, "Message is required", "");
    }
    if BotIdGuard(botId, rb).Halt? {
      return ErrorReply(403, "Bot ID mismatch", "");
    }
    if !OwnerExists(rb, st.users) {
      return ErrorReply(500, "Failed to process message", "Owner user does not exist");
    }
    if rb.modelName.None? {
      return ErrorReply(500, "Failed to process message", "Cannot read properties of undefined (reading 'startsWith')");
    }
    r := AnswerBotMessage(st, BotInbox(botId), rb.ownerUserId.value, rb.systemContext, rb.modelName.value, message.value,
                          envKey, sdEnv, invoke, post);
  }

  /**
   * The model call of `/:botId/message` once the checks have passed, the owner's
   * usage update it entails, and the saved pair.
   */
  method AnswerBotMessage(st: Store, t: Thread, owner: string, systemContext: Option<string>, modelName: string, message: string,
                          envKey: Option<string>, sdEnv: Option<string>, invoke: (ModelInstance, seq<Entry>) -> Result<Chunk>,
                          post: Kwargs -> Posted)
    returns (r: HttpReply<Option<string>>)
    modifies st
    ensures r.Reply? || (r.ErrorReply? && r.status == 500)
    ensures r.Reply? <==>
      (BotMessageRoute(modelName) == ChatRoute(OpenAIChat)
       && ReadInvocation(invoke(OpenAI(modelName, envKey), [SystemEntry(systemContext), Entry(Str("user"), Str(message))])).Ok?)
      || (BotMessageRoute(modelName) == ImagegenRoute
       && GenerateImage(sdEnv, Some(message), SecondColonField(modelName), None, post).Ok?)
    ensures r.Reply? && BotMessageRoute(modelName).ChatRoute? ==>
      var rd := ReadInvocation(invoke(OpenAI(modelName, envKey), [SystemEntry(systemContext), Entry(Str("user"), Str(message))]));
      rd.Ok? && r.body == rd.value.0 && st.users == WithTokens(old(st.users), owner, AsNumber(rd.value.1))
    ensures r.Reply? && BotMessageRoute(modelName) == ImagegenRoute ==>
      var g := GenerateImage(sdEnv, Some(message), SecondColonField(modelName), None, post);
      g.Ok? && r.body == IdOrUrl(g.value) && st.users == WithImage(old(st.users), owner)
    ensures r.Reply? ==> st.threads == old(st.threads)[t := old(st.Messages(t)) + InboxPair(message, r.body)]
    ensures !r.Reply? ==> st.users == old(st.users) && st.threads == old(st.threads)
  {
    var reply: Option<string>;
    match BotMessageRoute(modelName) {
      case ChatRoute(p) =>
        if p == OpenAIChat {
          OnlyOpenAIBranchGetsAClient(modelName, envKey, p);
        }
        var inst := GetModelInstance(modelName, envKey);
        if inst.Err? || !HasChatMethods(inst.value) {
          return ErrorReply(500, "Failed to process message", if inst.Err? then inst.msg else "model.invoke is not a function");
        }
        assert p == OpenAIChat;
        var rd := ReadInvocation(invoke(inst.value, [SystemEntry(systemContext), Entry(Str("user"), Str(message))]));
        if rd.Err? {
          return ErrorReply(500, "Failed to process message", rd.msg);
        }
        var _ := st.IncrementTokens(owner, AsNumber(rd.value.1));
        reply := rd.value.0;
      case ImagegenRoute =>
        var g := GenerateImage(sdEnv, Some(message), SecondColonField(modelName), None, post);
        if g.Err? {
          return ErrorReply(500, "Failed to process message", g.msg);
        }
        var _ := st.IncrementImages(owner);
        reply := IdOrUrl(g.value);
      case _ =>
        return ErrorReply(500, "Failed to process message", "Model not supported.");
    }
    st.AddPair(t, Plain("user", message), StoredMessage(Str("assistant"), FieldOf(reply), None, None));
    r := Reply(reply);
  }

  const InProgress: string := "Image generation in progress..."

  /** The assistant placeholder an image submission saves: it carries the job's request id. */
  function Placeholder(requestId: Option<string>): StoredMessage {
    StoredMessage(Str("assistant"), Str(InProgress), requestId, Some("imagegen"))
  }

  /**
   * `POST /:botId/chat/:chatId/image`: after the checks an "imagegen:" job is
   * submitted; a transport error or a reply with status "error" ends in a 500 before
   * anything is counted or saved. Otherwise the owner's image count is incremented,
   * then the user message and the placeholder are saved. "dalle:" calls an image
   * function the service does not define; any other model answers nothing at all.
   */
  method BotImage(st: Store, botId: string, chatId: string, rb: ReqBot, message: Option<string>,
                  sdEnv: Option<string>, post: Kwargs -> Posted)
    returns (r: HttpReply<Option<string>>)
    modifies st
    ensures !NonBlank(message) ==> r == ErrorReply(400, "Message is required", "")
    ensures NonBlank(message) && botId != rb.botId ==> r == ErrorReply(403, "Bot ID mismatch", "")
    ensures r.Reply? <==>
      NonBlank(message) && botId == rb.botId && OwnerExists(rb, old(st.users)) && rb.modelName.Some?
      && ImageRoute(rb.modelName.value) == ImagegenRoute
      && GenerateImage(sdEnv, message, SecondColonField(rb.modelName.value), None, post).Ok?
      && GenerateImage(sdEnv, message, SecondColonField(rb.modelName.value), None, post).value.status != Some("error")
    ensures r.Reply? ==>
      var g := GenerateImage(sdEnv, message, SecondColonField(rb.modelName.value), None, post);
      r.body == g.value.id && st.users == WithImage(old(st.users), rb.ownerUserId.value)
      && st.threads == old(st.threads)[BotChat(botId, chatId) :=
           old(st.Messages(BotChat(botId, chatId))) + [Plain("user", message.value), Placeholder(g.value.id)]]
    ensures r == NoReply ==> rb.modelName.Some? && ImageRoute(rb.modelName.value) == UnsupportedRoute
    ensures !r.Reply? ==> st.users == old(st.users) && st.threads == old(st.threads)
  {
    if !NonBlank(message) {
      return ErrorReply(400, "Message is required", "");
    }
    if BotIdGuard(botId, rb).Halt? {
      return ErrorReply(403, "Bot ID mismatch", "");
    }
    if !OwnerExists(rb, st.users) {
      return ErrorReply(500, "Failed to generate image", "Owner user does not exist");
    }
    if rb.modelName.None? {
      return ErrorReply(500, "Failed to generate image", "Cannot read properties of undefined (reading 'startsWith')");
    }
    r := SubmitBotImage(st, rb.ownerUserId.value, BotChat(botId, chatId), rb.modelName.value, message.value, sdEnv, post);
  }

  /** The model branch of the image route, once the checks have passed. */
  method SubmitBotImage(st: Store, owner: string, t: Thread, modelName: string, message: string,
                        sdEnv: Option<string>, post: Kwargs -> Posted)
    returns (r: HttpReply<Option<string>>)
    requires owner in st.users
    modifies st
    ensures r.Reply? <==>
      ImageRoute(modelName) == ImagegenRoute
      && GenerateImage(sdEnv, Some(message), SecondColonField(modelName), None, post).Ok?
      && GenerateImage(sdEnv, Some(message), SecondColonField(modelName), None, post).value.status != Some("error")
    ensures r.Reply? ==>
      var g := GenerateImage(sdEnv, Some(message), SecondColonField(modelName), None, post);
      r.body == g.value.id && st.users == WithImage(old(st.users), owner)
      && st.threads == old(st.threads)[t := old(st.Messages(t)) + [Plain("user", message), Placeholder(g.value.id)]]
    ensures r == NoReply ==> ImageRoute(modelName) == UnsupportedRoute
    ensures !r.Reply? ==> st.users == old(st.users) && st.threads == old(st.threads)
  {
    match ImageRoute(modelName) {
      case ImagegenRoute =>
        var g := GenerateImage(sdEnv, Some(message), SecondColonField(modelName), None, post);
        if g.Err? {
          return ErrorReply(500, "Failed to generate image", g.msg);
        }
        if g.value.status == Some("error") {
          return ErrorReply(500, "Failed to generate image", "SD API Returned an Error");
        }
        var _ := st.IncrementImages(owner);
        st.AddPair(t, Plain("user", message), Placeholder(g.value.id));
        r := Reply(g.value.id);
      case DalleRoute =>
        r := ErrorReply(500, "Failed to generate image", "generateDalleImg is not a function");
      case _ =>
        r := NoReply;
    }
  }

  /** The body `/get_images` answers with: the mirrored image URL, or the provider's reply as it came. */
  datatype ImagesBody = ImageUrl(url: string) | ProviderData(data: SdReply)

  /**
   * `POST /get_images`: polls the job. Only a reply with status "success" is
   * materialised: its first output is mirrored to storage by `mirror` (download,
   * upload, public URL) and that URL saved as an assistant message of the
   * authenticated bot's chat. Every other reply is passed through with no write.
   * Each successful poll saves another message.
   */
  method GetImages(st: Store, rb: ReqBot, requestId: Option<string>, chatId: Option<string>, sdEnv: Option<string>,
                   post: Kwargs -> Posted, mirror: string -> Result<string>)
    returns (r: HttpReply<ImagesBody>)
    modifies st
    ensures !Truthy(chatId) ==> r == ErrorReply(400, "chatId is required", "")
    ensures Truthy(chatId) && FetchImg(sdEnv, requestId, post).Err? ==> r.ErrorReply? && r.status == 500
    ensures Truthy(chatId) && FetchImg(sdEnv, requestId, post).Ok? && FetchImg(sdEnv, requestId, post).value.status != Some("success") ==>
      r == Reply(ProviderData(FetchImg(sdEnv, requestId, post).value))
    ensures st.users == old(st.users)
    ensures (Truthy(chatId) && FetchImg(sdEnv, requestId, post).Ok? && FetchImg(sdEnv, requestId, post).value.status == Some("success")
             && |FetchImg(sdEnv, requestId, post).value.output| > 0 && mirror(FetchImg(sdEnv, requestId, post).value.output[0]).Ok?) ==>
      r == Reply(ImageUrl(mirror(FetchImg(sdEnv, requestId, post).value.output[0]).value))
    ensures r.Reply? && r.body.ImageUrl? ==>
      var f := FetchImg(sdEnv, requestId, post);
      Truthy(chatId) && f.Ok? && f.value.status == Some("success") && |f.value.output| > 0
      && mirror(f.value.output[0]) == Ok(r.body.url)
      && st.threads == old(st.threads)[BotChat(rb.botId, chatId.value) :=
           old(st.Messages(BotChat(rb.botId, chatId.value))) + [StoredMessage(Str("assistant"), Str(r.body.url), None, Some("imagegen"))]]
    ensures !(r.Reply? && r.body.ImageUrl?) ==> st.threads == old(st.threads)
  {
    if !Truthy(chatId) {
      return ErrorReply(400, "chatId is required", "");
    }
    var f := FetchImg(sdEnv, requestId, post);
    if f.Err? {
      return ErrorReply(500, "Failed to process image", f.msg);
    }
    if f.value.status != Some("success") {
      return Reply(ProviderData(f.value));
    }
    if |f.value.output| == 0 {
      // `output[0]` is undefined and the download of it fails.
      return ErrorReply(500, "Failed to process image", "Invalid URL");
    }
    var m := mirror(f.value.output[0]);
    if m.Err? {
      return ErrorReply(500, "Failed to process image", m.msg);
    }
    st.Add(BotChat(rb.botId, chatId.value), StoredMessage(Str("assistant"), Str(m.value), None, Some("imagegen")));
    r := Reply(ImageUrl(m.value));
  }

  datatype Language = JavaScript | Python | Curl | Php

  /** The `switch (language.toLowerCase())` of the code-snippet route. */
  function SelectLanguage(language: string): (r: Option<Language>)
    ensures r == Some(JavaScript) <==> ToLowerAscii(language) in {"js", "javascript"}
    ensures r == Some(Python) <==> ToLowerAscii(language) == "python"
    ensures r == Some(Curl) <==> ToLowerAscii(language) == "curl"
    ensures r == Some(Php) <==> ToLowerAscii(language) == "php"
  {
    var l := ToLowerAscii(language);
    if l == "js" || l == "javascript" then Some(JavaScript)
    else if l == "python" then Some(Python)
    else if l == "curl" then Some(Curl)
    else if l == "php" then Some(Php)
    else None
  }

  /** Lower-casing twice is lower-casing once. */
  lemma LowerAsciiIdempotent(s: string)
    ensures ToLowerAscii(ToLowerAscii(s)) == ToLowerAscii(s)
  {
  }

  /** The selection ignores case: a name and its lower-case form pick the same snippet. */
  lemma SelectionIgnoresCase(language: string)
    ensures SelectLanguage(language) == SelectLanguage(ToLowerAscii(language))
  {
    LowerAsciiIdempotent(language);
  }

  /** `GET /:botId/chat/:chatId/code-snippet/:language`: the mismatch guard, then the selection. */
  function CodeSnippet(botId: string, rb: ReqBot, language: string): (r: Checked<Language>)
    ensures botId != rb.botId ==> r == Invalid(403, "Bot ID mismatch")
    ensures botId == rb.botId && SelectLanguage(language).None? ==>
      r == Invalid(400, "Invalid language selection. Choose from js, python, curl, php.")
    ensures r.Valid? <==> botId == rb.botId && SelectLanguage(language).Some?
    ensures r.Valid? ==> r.value == SelectLanguage(language).value
  {
    match BotIdGuard(botId, rb)
    case Halt(s, e) => Invalid(s, e)
    case Next(_) =>
      match SelectLanguage(language)
      case None => Invalid(400, "Invalid language selection. Choose from js, python, curl, php.")
      case Some(l) => Valid(l)
  }
}
