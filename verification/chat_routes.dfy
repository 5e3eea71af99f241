/**
 * The user chat routes: the prompt built from a chat's history and the new message,
 * the streaming handler, the one-shot `/message` handler, the image handler, and the
 * chat listings (`/chats`, and `/chats-grouped` by creation day).
 */
module ChatRoutes {
  import opened Common
  import opened Store
  import opened LangchainServices
  import opened StableDiffusionService
  import opened StreamRelay
  import opened Dispatch

  const Failed: string := "Failed to process message."
  const NoContent: string := "No valid content to process."
  const NotSupported: string := "Model not supported."
  /** The details of an error raised inside a provider SDK; its text is not modelled. */
  const ProviderError: string := "provider error"

  /** `{ role: msg.role, content: msg.content }`. */
  function Project(m: StoredMessage): Entry {
    Entry(m.role, m.content)
  }

  /**
   * The history filter `typeof msg.content === 'string' && msg.content.trim() !== ''`,
   * stated as "not all whitespace" (the two agree by `TrimEmptyIffBlank`).
   */
  predicate Usable(e: Entry) {
    e.content.Str? && !IsBlank(e.content.s)
  }

  /** The history mapped to `{ role, content }` and filtered, in timestamp order. */
  function PrepareHistory(history: seq<StoredMessage>): (r: seq<Entry>)
    ensures |r| <= |history|
  {
    if |history| == 0 then []
    else
      var last := Project(history[|history| - 1]);
      PrepareHistory(history[..|history| - 1]) + (if Usable(last) then [last] else [])
  }

  /** The positions of the history entries that pass the filter. */
  function KeptIndices(history: seq<StoredMessage>): seq<nat> {
    if |history| == 0 then []
    else
      KeptIndices(history[..|history| - 1]) + (if Usable(Project(history[|history| - 1])) then [|history| - 1] else [])
  }

  /** One kept position per prepared entry. */
  lemma {:induction false} KeptIndicesLength(history: seq<StoredMessage>)
    ensures |PrepareHistory(history)| == |KeptIndices(history)|
  {
    if |history| > 0 {
      KeptIndicesLength(history[..|history| - 1]);
    }
  }

  /** Every kept position is a position of the history. */
  lemma {:induction false} KeptIndicesInRange(history: seq<StoredMessage>)
    ensures forall j :: 0 <= j < |KeptIndices(history)| ==> KeptIndices(history)[j] < |history|
  {
    if |history| > 0 {
      KeptIndicesInRange(history[..|history| - 1]);
    }
  }

  /** The kept positions increase: the filter keeps the history's order. */
  lemma {:induction false} KeptIndicesIncrease(history: seq<StoredMessage>)
    ensures forall j, k :: 0 <= j < k < |KeptIndices(history)| ==> KeptIndices(history)[j] < KeptIndices(history)[k]
  {
    if |history| > 0 {
      var init := history[..|history| - 1];
      KeptIndicesIncrease(init);
      KeptIndicesInRange(init);
    }
  }

  /** A position is kept exactly when its entry is usable. */
  lemma {:induction false} KeptIndicesExactlyUsable(history: seq<StoredMessage>)
    ensures forall i :: 0 <= i < |history| ==> (Usable(Project(history[i])) <==> i in KeptIndices(history))
  {
    if |history| > 0 {
      var n := |history| - 1;
      var init := history[..n];
      KeptIndicesExactlyUsable(init);
      KeptIndicesInRange(init);
      assert forall i :: 0 <= i < n ==> init[i] == history[i];
      assert n !in KeptIndices(init);
    }
  }

  /** The prepared entry at each kept position is the projection of that history entry. */
  lemma {:induction false} KeptIndicesProject(history: seq<StoredMessage>)
    ensures |PrepareHistory(history)| == |KeptIndices(history)|
    ensures forall j :: 0 <= j < |KeptIndices(history)| ==>
      KeptIndices(history)[j] < |history| && PrepareHistory(history)[j] == Project(history[KeptIndices(history)[j]])
  {
    KeptIndicesLength(history);
    KeptIndicesInRange(history);
    if |history| > 0 {
      var n := |history| - 1;
      var init := history[..n];
      KeptIndicesProject(init);
      var idx0 := KeptIndices(init);
      forall j | 0 <= j < |idx0|
        ensures PrepareHistory(history)[j] == Project(history[KeptIndices(history)[j]])
      {
        assert KeptIndices(history)[j] == idx0[j];
        assert PrepareHistory(history)[j] == PrepareHistory(init)[j];
        assert init[idx0[j]] == history[idx0[j]];
      }
    }
  }

  /**
   * The prepared history is exactly the projections of the usable entries, in their
   * original order: the kept positions increase, and a position is kept iff its entry
   * is usable.
   */
  lemma PrepareHistoryIsOrderedFilter(history: seq<StoredMessage>)
    ensures |PrepareHistory(history)| == |KeptIndices(history)|
    ensures forall j :: 0 <= j < |KeptIndices(history)| ==>
      KeptIndices(history)[j] < |history| && PrepareHistory(history)[j] == Project(history[KeptIndices(history)[j]])
    ensures forall j, k :: 0 <= j < k < |KeptIndices(history)| ==> KeptIndices(history)[j] < KeptIndices(history)[k]
    ensures forall i :: 0 <= i < |history| ==> (Usable(Project(history[i])) <==> i in KeptIndices(history))
  {
    KeptIndicesProject(history);
    KeptIndicesIncrease(history);
    KeptIndicesExactlyUsable(history);
  }

  /** The request's message as the user entry of the prompt. */
  function UserEntry(message: string): Entry {
    Entry(Str("user"), Str(message))
  }

  /** `modelMessages` of `/stream/:chatId`: the prepared history, then the message if it is not blank. */
  function PreparePrompt(history: seq<StoredMessage>, message: Option<string>): seq<Entry> {
    PrepareHistory(history) + (if NonBlank(message) then [UserEntry(message.value)] else [])
  }

  /** The prompt is empty exactly when no history entry is usable and the message is blank or missing. */
  lemma PromptEmptyIff(history: seq<StoredMessage>, message: Option<string>)
    ensures PreparePrompt(history, message) == [] <==>
      (forall i :: 0 <= i < |history| ==> !Usable(Project(history[i]))) && !NonBlank(message)
  {
    PrepareHistoryIsOrderedFilter(history);
    if PrepareHistory(history) != [] {
      var i := KeptIndices(history)[0];
      assert Usable(Project(history[i]));
    }
  }

  /** A non-blank message is the last entry of the prompt; a blank one adds nothing. */
  lemma MessageAppendedLast(history: seq<StoredMessage>, message: Option<string>)
    ensures NonBlank(message) ==> |PreparePrompt(history, message)| == |PrepareHistory(history)| + 1
    ensures NonBlank(message) ==> PreparePrompt(history, message)[|PrepareHistory(history)|] == UserEntry(message.value)
    ensures !NonBlank(message) ==> PreparePrompt(history, message) == PrepareHistory(history)
  {
  }

  /** The user document a handler saves: `content: message`, the raw request value. */
  function UserMessage(message: Option<string>): StoredMessage {
    StoredMessage(Str("user"), FieldOf(message), None, None)
  }

  function AssistantMessage(text: string): StoredMessage {
    Plain("assistant", text)
  }

  /**
   * `POST /stream/:chatId`. Nothing is saved and no token is counted unless the whole
   * stream was relayed; then the user message, the assistant text and the increment
   * follow, in that order. As written, only an "openai:" name gets a client with
   * `stream`: the gemini, llama/mixtral and anthropic branches end in the 500 reply.
   */
  method Stream(st: Store, uid: string, chatId: string, modelName: string, message: Option<string>,
                envKey: Option<string>, provider: (ModelInstance, seq<Entry>) -> ProviderStream)
    returns (r: StreamReply, tokensUsed: JsNumber)
    modifies st
    ensures PreparePrompt(old(st.Messages(UserChat(uid, chatId))), message) == [] ==> r == ErrorJson(500, Failed, NoContent)
    ensures StreamProvider(modelName) != Some(OpenAIChat) ==> r.ErrorJson?
    ensures r.Streamed? || r.LeftOpen? ==> StartsWith(modelName, "openai:")
    ensures r.Streamed? <==>
      PreparePrompt(old(st.Messages(UserChat(uid, chatId))), message) != [] && StartsWith(modelName, "openai:") &&
      var s := provider(OpenAI(modelName, envKey), PreparePrompt(old(st.Messages(UserChat(uid, chatId))), message));
      !s.fails && Consumed(s.chunks) == |s.chunks|
    ensures r.Streamed? ==>
      var s := provider(OpenAI(modelName, envKey), PreparePrompt(old(st.Messages(UserChat(uid, chatId))), message));
      !s.fails && Consumed(s.chunks) == |s.chunks| && r.body == Concat(Pieces(s.chunks)) && tokensUsed == UsageTotal(s.chunks)
    ensures r.Streamed? ==>
      st.threads == old(st.threads)[UserChat(uid, chatId) :=
        old(st.Messages(UserChat(uid, chatId))) + [UserMessage(message), AssistantMessage(r.body)]]
    ensures r.Streamed? ==> st.users == WithTokens(old(st.users), uid, tokensUsed)
    ensures !r.Streamed? ==> st.threads == old(st.threads) && st.users == old(st.users)
  {
    tokensUsed := Num(0);
    var t := UserChat(uid, chatId);
    var prompt := PreparePrompt(st.Messages(t), message);
    if prompt == [] {
      return ErrorJson(500, Failed, NoContent), tokensUsed;
    }
    r, tokensUsed := StreamPrompt(st, t, uid, modelName, message, prompt, envKey, provider);
  }

  /** `/stream/:chatId` from the provider chain on, with the prepared prompt. */
  method StreamPrompt(st: Store, t: Thread, uid: string, modelName: string, message: Option<string>, prompt: seq<Entry>,
                      envKey: Option<string>, provider: (ModelInstance, seq<Entry>) -> ProviderStream)
    returns (r: StreamReply, tokensUsed: JsNumber)
    modifies st
    ensures StreamProvider(modelName) != Some(OpenAIChat) ==> r.ErrorJson?
    ensures r.Streamed? || r.LeftOpen? ==> StartsWith(modelName, "openai:")
    ensures r.Streamed? <==>
      StartsWith(modelName, "openai:") &&
      var s := provider(OpenAI(modelName, envKey), prompt);
      !s.fails && Consumed(s.chunks) == |s.chunks|
    ensures r.Streamed? ==>
      var s := provider(OpenAI(modelName, envKey), prompt);
      !s.fails && Consumed(s.chunks) == |s.chunks| && r.body == Concat(Pieces(s.chunks)) && tokensUsed == UsageTotal(s.chunks)
    ensures r.Streamed? ==> st.threads == old(st.threads)[t := old(st.Messages(t)) + [UserMessage(message), AssistantMessage(r.body)]]
    ensures r.Streamed? ==> st.users == WithTokens(old(st.users), uid, tokensUsed)
    ensures !r.Streamed? ==> st.threads == old(st.threads) && st.users == old(st.users)
  {
    tokensUsed := Num(0);
    var p := StreamProvider(modelName);
    if p.None? {
      return ErrorJson(500, Failed, NotSupported), tokensUsed;
    }
    var inst := GetModelInstance(modelName, envKey);
    if inst.Err? {
      return ErrorJson(500, Failed, inst.msg), tokensUsed;
    }
    if !HasChatMethods(inst.value) {
      return ErrorJson(500, Failed, "geminiModel.stream is not a function"), tokensUsed;
    }
    // Only the "openai:" branch gets here; its loop is the standard one.
    OnlyOpenAIBranchGetsAClient(modelName, envKey, p.value);
    assert p.value == OpenAIChat;
    assert StartsWith(modelName, "openai:");
    var o := RelayStandard(provider(inst.value, prompt));
    r := Finish(st, t, uid, message, o);
    tokensUsed := if r.Streamed? then o.tokens else Num(0);
  }

  /**
   * The end of `/stream/:chatId` once the relay loop is over. After a failure nothing
   * is saved, and once a chunk has been written the headers are sent and the 500
   * reply itself throws. After a full stream the user message and the assistant text
   * are saved, then the tokens counted; the response has already ended, so a failed
   * increment no longer changes what the client saw.
   */
  method Finish(st: Store, t: Thread, uid: string, message: Option<string>, o: Relayed) returns (r: StreamReply)
    modifies st
    ensures o.failed && |o.written| == 0 ==> r == ErrorJson(500, Failed, ProviderError)
    ensures o.failed && |o.written| > 0 ==> r == LeftOpen
    ensures o.failed ==> st.threads == old(st.threads) && st.users == old(st.users)
    ensures !o.failed ==> r == Streamed(o.text)
    ensures !o.failed ==> st.threads == old(st.threads)[t := old(st.Messages(t)) + [UserMessage(message), AssistantMessage(o.text)]]
    ensures !o.failed ==> st.users == WithTokens(old(st.users), uid, o.tokens)
  {
    if o.failed {
      if |o.written| == 0 {
        return ErrorJson(500, Failed, ProviderError);
      }
      return LeftOpen;
    }
    st.AddPair(t, UserMessage(message), AssistantMessage(o.text));
    var _ := st.IncrementTokens(uid, o.tokens);
    r := Streamed(o.text);
  }

  /**
   * `POST /message`: a one-shot call with the message alone, nothing saved. A chat
   * model's `total_tokens` is added to `tokenCount`; an "imagegen:" submission adds 1
   * to `imageGenerationCount` and then 0 to `tokenCount`. "dalle:" calls an image
   * function the service does not define, so it always fails.
   */
  method Message(st: Store, uid: string, modelName: string, message: Option<string>, envKey: Option<string>,
                 sdEnv: Option<string>, invoke: (ModelInstance, seq<Entry>) -> Result<Chunk>, post: Kwargs -> Posted)
    returns (r: HttpReply<Option<string>>)
    modifies st
    ensures !NonBlank(message) ==> r == ErrorReply(500, Failed, NoContent)
    ensures st.threads == old(st.threads)
    ensures r.Reply? ==> NonBlank(message) && uid in old(st.users)
    ensures r.Reply? <==>
      (NonBlank(message) && uid in old(st.users) &&
       ((ChatMessageRoute(modelName) == ChatRoute(OpenAIChat)
         && ReadInvocation(invoke(OpenAI(modelName, envKey), [UserEntry(message.value)])).Ok?)
        || (ChatMessageRoute(modelName) == ImagegenRoute
         && GenerateImage(sdEnv, message, SecondColonField(modelName), None, post).Ok?)))
    ensures r.Reply? && ChatMessageRoute(modelName).ChatRoute? ==>
      var rd := ReadInvocation(invoke(OpenAI(modelName, envKey), [UserEntry(message.value)]));
      rd.Ok? && r.body == rd.value.0 && st.users == WithTokens(old(st.users), uid, AsNumber(rd.value.1))
    ensures r.Reply? && ChatMessageRoute(modelName) == ImagegenRoute ==>
      var g := GenerateImage(sdEnv, message, SecondColonField(modelName), None, post);
      g.Ok? && r.body == g.value.id && st.users == WithTokens(WithImage(old(st.users), uid), uid, Num(0))
    ensures !r.Reply? ==> st.users == old(st.users)
  {
    if !NonBlank(message) {
      return ErrorReply(500, Failed, NoContent);
    }
    match ChatMessageRoute(modelName)
    case ChatRoute(p) =>
      r := InvokeChat(st, uid, modelName, p, message.value, envKey, invoke);
    case ImagegenRoute =>
      r := SubmitImage(st, uid, modelName, message, sdEnv, post);
    case DalleRoute =>
      r := ErrorReply(500, Failed, "generateDalleImg is not a function");
    case UnsupportedRoute =>
      r := ErrorReply(500, Failed, NotSupported);
  }

  /** The chat branches of `/message`: invoke on the single user entry, then add its `total_tokens`. */
  method InvokeChat(st: Store, uid: string, modelName: string, p: ChatProvider, message: string, envKey: Option<string>,
                    invoke: (ModelInstance, seq<Entry>) -> Result<Chunk>)
    returns (r: HttpReply<Option<string>>)
    requires StreamProvider(modelName) == Some(p)
    modifies st
    ensures st.threads == old(st.threads)
    ensures r.Reply? <==>
      p == OpenAIChat && ReadInvocation(invoke(OpenAI(modelName, envKey), [UserEntry(message)])).Ok? && uid in old(st.users)
    ensures r.Reply? ==>
      var rd := ReadInvocation(invoke(OpenAI(modelName, envKey), [UserEntry(message)]));
      rd.Ok? && r.body == rd.value.0 && st.users == WithTokens(old(st.users), uid, AsNumber(rd.value.1))
    ensures !r.Reply? ==> st.users == old(st.users)
  {
    OnlyOpenAIBranchGetsAClient(modelName, envKey, p);
    var inst := GetModelInstance(modelName, envKey);
    if inst.Err? {
      return ErrorReply(500, Failed, inst.msg);
    }
    if !HasChatMethods(inst.value) {
      return ErrorReply(500, Failed, "geminiModel.invoke is not a function");
    }
    var rd := ReadInvocation(invoke(inst.value, [UserEntry(message)]));
    if rd.Err? {
      return ErrorReply(500, Failed, rd.msg);
    }
    var ok := st.IncrementTokens(uid, AsNumber(rd.value.1));
    if !ok {
      return ErrorReply(500, Failed, "No document to update");
    }
    r := Reply(rd.value.0);
  }

  /** The "imagegen:" branch of `/message`: submit, count the image, add zero tokens. */
  method SubmitImage(st: Store, uid: string, modelName: string, message: Option<string>, sdEnv: Option<string>,
                     post: Kwargs -> Posted)
    returns (r: HttpReply<Option<string>>)
    modifies st
    ensures st.threads == old(st.threads)
    ensures r.Reply? <==> GenerateImage(sdEnv, message, SecondColonField(modelName), None, post).Ok? && uid in old(st.users)
    ensures r.Reply? ==>
      var g := GenerateImage(sdEnv, message, SecondColonField(modelName), None, post);
      g.Ok? && r.body == g.value.id && st.users == WithTokens(WithImage(old(st.users), uid), uid, Num(0))
    ensures !r.Reply? ==> st.users == old(st.users)
  {
    var g := GenerateImage(sdEnv, message, SecondColonField(modelName), None, post);
    if g.Err? {
      return ErrorReply(500, Failed, g.msg);
    }
    var ok := st.IncrementImages(uid);
    if !ok {
      return ErrorReply(500, Failed, "No document to update");
    }
    ok := st.IncrementTokens(uid, Num(0));
    r := Reply(g.value.id);
  }

  /**
   * `POST /image/:chatId`: an "imagegen:" submission, then the image count, then the
   * user message and the job id as the assistant message. A failed submission changes
   * nothing; the "dalle:" branch fails before any write.
   */
  method Image(st: Store, uid: string, chatId: string, modelName: string, message: Option<string>,
               sdEnv: Option<string>, post: Kwargs -> Posted)
    returns (r: HttpReply<Option<string>>)
    modifies st
    ensures r.Reply? <==>
      ImageRoute(modelName) == ImagegenRoute && GenerateImage(sdEnv, message, SecondColonField(modelName), None, post).Ok? && uid in old(st.users)
    ensures r.Reply? ==>
      var id := GenerateImage(sdEnv, message, SecondColonField(modelName), None, post).value.id;
      r.body == id && st.users == WithImage(old(st.users), uid)
      && st.threads == old(st.threads)[UserChat(uid, chatId) :=
           old(st.Messages(UserChat(uid, chatId))) + [UserMessage(message), StoredMessage(Str("assistant"), FieldOf(id), None, None)]]
    ensures !r.Reply? ==> st.users == old(st.users) && st.threads == old(st.threads)
  {
    match ImageRoute(modelName)
    case ImagegenRoute =>
      var g := GenerateImage(sdEnv, message, SecondColonField(modelName), None, post);
      if g.Err? {
        return ErrorReply(500, Failed, g.msg);
      }
      var ok := st.IncrementImages(uid);
      if !ok {
        return ErrorReply(500, Failed, "No document to update");
      }
      st.AddPair(UserChat(uid, chatId), UserMessage(message), StoredMessage(Str("assistant"), FieldOf(g.value.id), None, None));
      r := Reply(g.value.id);
    case DalleRoute =>
      r := ErrorReply(500, Failed, "botId is not defined");
    case _ =>
      r := ErrorReply(500, Failed, NotSupported);
  }

  /** A document of a user's `chats` collection; `createdAt` as a timestamp, when set. */
  datatype ChatDoc = ChatDoc(id: string, name: Option<string>, createdAt: Option<int>)

  datatype ChatInfo = ChatInfo(chatId: string, name: string)

  /** `{ chatId: doc.id, name: doc.data().name || 'Untitled Chat' }`. */
  function InfoOf(c: ChatDoc): ChatInfo {
    ChatInfo(c.id, OrElse(c.name, "Untitled Chat"))
  }

  /**
   * `GET /chats`: every chat, in collection order, with the default name; none at all
   * is a 404. The router registers `GET /:chatId` earlier in the same file, and that
   * pattern matches "/chats" too, so as the routes stand a request for "/chats" is
   * answered by the history handler (for a chat named "chats") and never gets here.
   */
  method ListChats(chats: Lookup<seq<ChatDoc>>) returns (r: HttpReply<seq<ChatInfo>>)
    ensures chats.LookupFailed? <==> r.ErrorReply? && r.status == 500
    ensures chats == Found([]) <==> r == ErrorReply(404, "No chats found for this user.", "")
    ensures r.Reply? ==> chats.Found? && |r.body| == |chats.value| > 0
    ensures r.Reply? ==> forall i :: 0 <= i < |chats.value| ==>
      r.body[i].chatId == chats.value[i].id && r.body[i].name == OrElse(chats.value[i].name, "Untitled Chat")
  {
    if chats.LookupFailed? {
      return ErrorReply(500, "Error fetching chats.", chats.reason);
    }
    var docs := chats.value;
    if |docs| == 0 {
      return ErrorReply(404, "No chats found for this user.", "");
    }
    var out: seq<ChatInfo> := [];
    var i := 0;
    while i < |docs|
      invariant 0 <= i <= |docs|
      invariant |out| == i
      invariant forall j :: 0 <= j < i ==> out[j] == InfoOf(docs[j])
    {
      out := out + [InfoOf(docs[i])];
      i := i + 1;
    }
    r := Reply(out);
  }

  /** The start of today, yesterday, 7 and 30 days ago, as timestamps. */
  datatype Boundaries = Boundaries(todayStart: int, yesterdayStart: int, past7DaysStart: int, past30DaysStart: int)

  /** The boundaries as the calendar gives them: each earlier than the next. */
  predicate Ordered(b: Boundaries) {
    b.past30DaysStart < b.past7DaysStart < b.yesterdayStart < b.todayStart
  }

  datatype Bucket = Today | Yesterday | Past7Days | Past30Days | Older

  /** The `if`/`else` chain of `/chats-grouped`; a chat without `createdAt` is older. */
  function BucketOf(createdAt: Option<int>, b: Boundaries): Bucket {
    match createdAt
    case None => Older
    case Some(t) =>
      if t >= b.todayStart then Today
      else if t >= b.yesterdayStart && t < b.todayStart then Yesterday
      else if t >= b.past7DaysStart && t < b.yesterdayStart then Past7Days
      else if t >= b.past30DaysStart && t < b.past7DaysStart then Past30Days
      else Older
  }

  /** With ordered boundaries each bucket is a half-open interval of time. */
  lemma BucketIntervals(t: int, b: Boundaries)
    requires Ordered(b)
    ensures BucketOf(Some(t), b) == Today <==> b.todayStart <= t
    ensures BucketOf(Some(t), b) == Yesterday <==> b.yesterdayStart <= t < b.todayStart
    ensures BucketOf(Some(t), b) == Past7Days <==> b.past7DaysStart <= t < b.yesterdayStart
    ensures BucketOf(Some(t), b) == Past30Days <==> b.past30DaysStart <= t < b.past7DaysStart
    ensures BucketOf(Some(t), b) == Older <==> t < b.past30DaysStart
  {
  }

  /** The chats of one bucket, in collection order. */
  function InBucket(chats: seq<ChatDoc>, b: Boundaries, k: Bucket): seq<ChatInfo> {
    if |chats| == 0 then []
    else
      var last := chats[|chats| - 1];
      InBucket(chats[..|chats| - 1], b, k) + (if BucketOf(last.createdAt, b) == k then [InfoOf(last)] else [])
  }

  datatype Grouped = Grouped(today: seq<ChatInfo>, yesterday: seq<ChatInfo>, past7Days: seq<ChatInfo>,
                             past30Days: seq<ChatInfo>, older: seq<ChatInfo>)

  function TotalSize(g: Grouped): nat {
    |g.today| + |g.yesterday| + |g.past7Days| + |g.past30Days| + |g.older|
  }

  function GroupAll(chats: seq<ChatDoc>, b: Boundaries): Grouped {
    Grouped(InBucket(chats, b, Today), InBucket(chats, b, Yesterday), InBucket(chats, b, Past7Days),
            InBucket(chats, b, Past30Days), InBucket(chats, b, Older))
  }

  /** Every chat lands in exactly one bucket: the buckets partition the chats. */
  lemma {:induction false} BucketsPartition(chats: seq<ChatDoc>, b: Boundaries)
    ensures TotalSize(GroupAll(chats, b)) == |chats|
  {
    if |chats| > 0 {
      BucketsPartition(chats[..|chats| - 1], b);
    }
  }

  /**
   * `GET /chats-grouped`: the chats split by creation day; none at all is a 404. Like
   * `/chats`, the path is also matched by the earlier `GET /:chatId`, which answers it.
   */
  method GroupChats(chats: Lookup<seq<ChatDoc>>, b: Boundaries) returns (r: HttpReply<Grouped>)
    ensures chats.LookupFailed? <==> r.ErrorReply? && r.status == 500
    ensures chats == Found([]) <==> r == ErrorReply(404, "No chats found for this user.", "")
    ensures r.Reply? ==> chats.Found? && r.body == GroupAll(chats.value, b) && TotalSize(r.body) == |chats.value|
  {
    if chats.LookupFailed? {
      return ErrorReply(500, "Error fetching chats.", chats.reason);
    }
    var docs := chats.value;
    if |docs| == 0 {
      return ErrorReply(404, "No chats found for this user.", "");
    }
    var g := Grouped([], [], [], [], []);
    var i := 0;
    while i < |docs|
      invariant 0 <= i <= |docs|
      invariant g == GroupAll(docs[..i], b)
    {
      assert docs[..i + 1][..i] == docs[..i];
      var info := InfoOf(docs[i]);
      match BucketOf(docs[i].createdAt, b) {
        case Today => g := g.(today := g.today + [info]);
        case Yesterday => g := g.(yesterday := g.yesterday + [info]);
        case Past7Days => g := g.(past7Days := g.past7Days + [info]);
        case Past30Days => g := g.(past30Days := g.past30Days + [info]);
        case Older => g := g.(older := g.older + [info]);
      }
      i := i + 1;
    }
    assert docs[..i] == docs;
    BucketsPartition(docs, b);
    r := Reply(g);
  }
}
