/**
 * The `for await` loops that relay a provider stream to the HTTP response. Each chunk
 * may carry `kwargs`; `kwargs` may carry `content` and `usage_metadata.total_tokens`.
 * The loop of the openai/llama/mixtral/anthropic branches writes and accumulates
 * every `kwargs.content` and adds every `total_tokens` with JavaScript `+=`; the
 * Gemini loop skips content that is undefined, "" or "undefined" and adds only
 * token counts that are numbers (not NaN, not 0 == "", not null).
 */
module StreamRelay {
  import opened Common

  /** `usage_metadata.total_tokens` when `usage_metadata` is present. */
  datatype TokenValue = Count(n: nat) | Null | Undefined

  /** What `tokensUsed += v` adds: null converts to 0, undefined to NaN. */
  function AsNumber(v: TokenValue): JsNumber {
    match v
    case Count(n) => Num(n)
    case Null => Num(0)
    case Undefined => NaN
  }

  datatype ChunkKwargs = ChunkKwargs(content: Option<string>, usage: Option<TokenValue>)

  /** `chunk.toJSON()`: `kwargs` may be missing. */
  datatype Chunk = Chunk(kwargs: Option<ChunkKwargs>)

  /** The chunks a provider stream yields, and whether iterating it then throws. */
  datatype ProviderStream = ProviderStream(chunks: seq<Chunk>, fails: bool)

  /** What a relay loop leaves behind: the strings passed to `res.write`, the accumulators, and whether it threw. */
  datatype Relayed = Relayed(written: seq<string>, text: string, tokens: JsNumber, failed: bool)

  /** How a streaming handler ends: a completed 200 stream, an error JSON sent before any chunk, or a response never finished. */
  datatype StreamReply = Streamed(body: string) | ErrorJson(status: nat, error: string, details: string) | LeftOpen

  /** The concatenation of the pieces, in order. */
  function Concat(pieces: seq<string>): string {
    if |pieces| == 0 then "" else Concat(pieces[..|pieces| - 1]) + pieces[|pieces| - 1]
  }

  /** A chunk whose `kwargs.content` is undefined: `res.write(undefined)` throws on it. */
  predicate Unwritable(c: Chunk) {
    c.kwargs.Some? && c.kwargs.value.content.None?
  }

  /** The chunks the standard loop gets through: all of them, or those before the first unwritable one. */
  function Consumed(chunks: seq<Chunk>): (k: nat)
    ensures k <= |chunks|
    ensures forall j :: 0 <= j < k ==> !Unwritable(chunks[j])
    ensures k < |chunks| ==> Unwritable(chunks[k])
  {
    if |chunks| == 0 then 0
    else if Unwritable(chunks[0]) then 0
    else 1 + Consumed(chunks[1..])
  }

  /** The contents the standard loop writes, in order. */
  function Pieces(chunks: seq<Chunk>): seq<string> {
    if |chunks| == 0 then []
    else
      var c := chunks[|chunks| - 1];
      Pieces(chunks[..|chunks| - 1]) + (if c.kwargs.Some? && c.kwargs.value.content.Some? then [c.kwargs.value.content.value] else [])
  }

  /** `tokensUsed` of the standard loop: 0 plus every `total_tokens` of a chunk with usage metadata. */
  function UsageTotal(chunks: seq<Chunk>): JsNumber {
    if |chunks| == 0 then Num(0)
    else AddUsage(UsageTotal(chunks[..|chunks| - 1]), chunks[|chunks| - 1])
  }

  /** One step of the standard token accumulator. */
  function AddUsage(tokens: JsNumber, c: Chunk): JsNumber {
    if c.kwargs.Some? && c.kwargs.value.usage.Some? then tokens.Plus(AsNumber(c.kwargs.value.usage.value)) else tokens
  }

  /** The Gemini content filter. */
  predicate GeminiShows(content: Option<string>) {
    content.Some? && content.value != "" && content.value != "undefined"
  }

  /**
   * The Gemini token filter `!isNaN(v) && v != '' && v != null`: undefined is NaN, null
   * is excluded, and a number is loosely equal to '' exactly when it is 0.
   */
  predicate GeminiCounts(v: TokenValue) {
    v.Count? && v.n != 0
  }

  /** The contents the Gemini loop writes, in order. */
  function GeminiPieces(chunks: seq<Chunk>): seq<string> {
    if |chunks| == 0 then []
    else
      var c := chunks[|chunks| - 1];
      GeminiPieces(chunks[..|chunks| - 1]) + (if c.kwargs.Some? && GeminiShows(c.kwargs.value.content) then [c.kwargs.value.content.value] else [])
  }

  /** `tokensUsed` of the Gemini loop. */
  function GeminiTokens(chunks: seq<Chunk>): nat {
    if |chunks| == 0 then 0
    else
      var c := chunks[|chunks| - 1];
      GeminiTokens(chunks[..|chunks| - 1])
        + (if c.kwargs.Some? && c.kwargs.value.usage.Some? && GeminiCounts(c.kwargs.value.usage.value) then c.kwargs.value.usage.value.n else 0)
  }

  /**
   * The loop of the openai, llama/mixtral and anthropic branches. It stops with a failure
   * at the first chunk whose content is undefined (nothing of that chunk is written), and
   * fails after the last chunk when the stream itself throws.
   */
  method RelayStandard(s: ProviderStream) returns (o: Relayed)
    ensures o.written == Pieces(s.chunks[..Consumed(s.chunks)])
    ensures o.failed <==> Consumed(s.chunks) < |s.chunks| || s.fails
    ensures o.text == Concat(o.written)
    ensures !o.failed ==> o.written == Pieces(s.chunks) && o.tokens == UsageTotal(s.chunks)
  {
    var written: seq<string> := [];
    var text := "";
    var tokens := Num(0);
    var i := 0;
    var k := Consumed(s.chunks);
    while i < k
      invariant 0 <= i <= k
      invariant written == Pieces(s.chunks[..i])
      invariant text == Concat(written)
      invariant tokens == UsageTotal(s.chunks[..i])
    {
      var c := s.chunks[i];
      assert s.chunks[..i + 1][..i] == s.chunks[..i];
      if c.kwargs.Some? {
        var content := c.kwargs.value.content.value;
        text := text + content;
        written := written + [content];
        if c.kwargs.value.usage.Some? {
          tokens := tokens.Plus(AsNumber(c.kwargs.value.usage.value));
        }
      }
      i := i + 1;
    }
    assert k == |s.chunks| ==> s.chunks[..k] == s.chunks;
    o := Relayed(written, text, tokens, k < |s.chunks| || s.fails);
  }

  /** The Gemini loop; it only fails when the stream itself throws. */
  method RelayGemini(s: ProviderStream) returns (o: Relayed)
    ensures o.written == GeminiPieces(s.chunks)
    ensures o.text == Concat(o.written)
    ensures o.tokens == Num(GeminiTokens(s.chunks))
    ensures o.failed == s.fails
  {
    var written: seq<string> := [];
    var text := "";
    var tokens: nat := 0;
    var i := 0;
    while i < |s.chunks|
      invariant 0 <= i <= |s.chunks|
      invariant written == GeminiPieces(s.chunks[..i])
      invariant text == Concat(written)
      invariant tokens == GeminiTokens(s.chunks[..i])
    {
      var c := s.chunks[i];
      assert s.chunks[..i + 1][..i] == s.chunks[..i];
      if c.kwargs.Some? {
        if GeminiShows(c.kwargs.value.content) {
          text := text + c.kwargs.value.content.value;
          written := written + [c.kwargs.value.content.value];
        }
        if c.kwargs.value.usage.Some? && GeminiCounts(c.kwargs.value.usage.value) {
          tokens := tokens + c.kwargs.value.usage.value.n;
        }
      }
      i := i + 1;
    }
    assert s.chunks[..i] == s.chunks;
    o := Relayed(written, text, Num(tokens), s.fails);
  }

  /** Concatenation distributes over sequence append. */
  lemma {:induction false} ConcatAppend(a: seq<string>, b: seq<string>)
    ensures Concat(a + b) == Concat(a) + Concat(b)
    decreases |b|
  {
    if |b| == 0 {
      assert a + b == a;
    } else {
      var init, last := b[..|b| - 1], b[|b| - 1];
      assert (a + b)[..|a + b| - 1] == a + init;
      assert (a + b)[|a + b| - 1] == last;
      assert Concat(a + b) == Concat(a + init) + last;
      ConcatAppend(a, init);
      assert Concat(b) == Concat(init) + last;
      assert Concat(a) + Concat(init) + last == Concat(a) + (Concat(init) + last);
    }
  }

  /** The standard loop's pieces of two runs of chunks are the pieces of each, in order. */
  lemma {:induction false} PiecesAppend(a: seq<Chunk>, b: seq<Chunk>)
    ensures Pieces(a + b) == Pieces(a) + Pieces(b)
    decreases |b|
  {
    if |b| == 0 {
      assert a + b == a;
    } else {
      assert (a + b)[..|a + b| - 1] == a + b[..|b| - 1];
      PiecesAppend(a, b[..|b| - 1]);
    }
  }

  lemma AddUsageShifts(x: JsNumber, y: JsNumber, c: Chunk)
    ensures AddUsage(x.Plus(y), c) == x.Plus(AddUsage(y, c))
  {
  }

  /** `UsageTotal` of a run ending in one more chunk. */
  lemma UsageTotalSnoc(chunks: seq<Chunk>, c: Chunk)
    ensures UsageTotal(chunks + [c]) == AddUsage(UsageTotal(chunks), c)
  {
    assert (chunks + [c])[..|chunks|] == chunks;
  }

  lemma {:induction false} UsageTotalAppend(a: seq<Chunk>, b: seq<Chunk>)
    ensures UsageTotal(a + b) == UsageTotal(a).Plus(UsageTotal(b))
    decreases |b|
  {
    if |b| == 0 {
      assert a + b == a;
      assert UsageTotal(a).Plus(Num(0)) == UsageTotal(a);
    } else {
      var init := b[..|b| - 1];
      var c := b[|b| - 1];
      assert b == init + [c];
      assert a + b == (a + init) + [c];
      UsageTotalAppend(a, init);
      UsageTotalSnoc(a + init, c);
      UsageTotalSnoc(init, c);
      AddUsageShifts(UsageTotal(a), UsageTotal(init), c);
    }
  }

  /** A chunk without `kwargs` changes neither the written text nor the token total. */
  lemma ChunkWithoutKwargsSkipped(a: seq<Chunk>, b: seq<Chunk>)
    ensures Pieces(a + [Chunk(None)] + b) == Pieces(a + b)
    ensures UsageTotal(a + [Chunk(None)] + b) == UsageTotal(a + b)
  {
    var skip := [Chunk(None)];
    assert Pieces(skip) == [] by {
      assert skip[..0] == [];
    }
    assert UsageTotal(skip) == Num(0) by {
      assert skip[..0] == [];
    }
    PiecesAppend(a, skip);
    PiecesAppend(a + skip, b);
    PiecesAppend(a, b);
    assert Pieces(a + skip) == Pieces(a);
    UsageTotalAppend(a, skip);
    UsageTotalAppend(a + skip, b);
    UsageTotalAppend(a, b);
    assert UsageTotal(a).Plus(Num(0)) == UsageTotal(a);
    assert UsageTotal(a + skip) == UsageTotal(a);
  }

  /** One usage value of `undefined` makes the standard total NaN for good. */
  lemma {:induction false} UndefinedUsagePoisonsTotal(chunks: seq<Chunk>, i: nat)
    requires i < |chunks| && chunks[i].kwargs.Some? && chunks[i].kwargs.value.usage == Some(Undefined)
    ensures UsageTotal(chunks) == NaN
  {
    if i < |chunks| - 1 {
      UndefinedUsagePoisonsTotal(chunks[..|chunks| - 1], i);
    }
  }

  /** Every usage value is a number (or null, read as 0). */
  predicate AllUsageNumeric(chunks: seq<Chunk>) {
    forall j :: 0 <= j < |chunks| && chunks[j].kwargs.Some? && chunks[j].kwargs.value.usage.Some? ==>
      !chunks[j].kwargs.value.usage.value.Undefined?
  }

  /** Every content is present, non-empty and not the text "undefined". */
  predicate AllContentShown(chunks: seq<Chunk>) {
    forall j :: 0 <= j < |chunks| && chunks[j].kwargs.Some? ==> GeminiShows(chunks[j].kwargs.value.content)
  }

  /**
   * On a stream of well-formed chunks both loops agree: the Gemini filters only
   * remove what the standard loop would turn into "undefined" text, an empty write,
   * or a NaN total.
   */
  lemma {:induction false} LoopsAgreeOnWellFormedStreams(chunks: seq<Chunk>)
    requires AllUsageNumeric(chunks) && AllContentShown(chunks)
    ensures Pieces(chunks) == GeminiPieces(chunks)
    ensures UsageTotal(chunks) == Num(GeminiTokens(chunks))
  {
    if |chunks| > 0 {
      var init := chunks[..|chunks| - 1];
      assert AllUsageNumeric(init) && AllContentShown(init) by {
        assert forall j :: 0 <= j < |init| ==> init[j] == chunks[j];
      }
      LoopsAgreeOnWellFormedStreams(init);
    }
  }

  /** The Gemini text never contains a piece that is empty or reads "undefined". */
  lemma {:induction false} GeminiPiecesFiltered(chunks: seq<Chunk>)
    ensures forall j :: 0 <= j < |GeminiPieces(chunks)| ==>
      GeminiPieces(chunks)[j] != "" && GeminiPieces(chunks)[j] != "undefined"
  {
    if |chunks| > 0 {
      GeminiPiecesFiltered(chunks[..|chunks| - 1]);
    }
  }

  /**
   * `response.toJSON().kwargs.content` and `.kwargs.usage_metadata.total_tokens` of an
   * `invoke` result; reading through a missing `kwargs` or `usage_metadata` throws.
   */
  function ReadInvocation(c: Result<Chunk>): (r: Result<(Option<string>, TokenValue)>)
    ensures r.Ok? <==> c.Ok? && c.value.kwargs.Some? && c.value.kwargs.value.usage.Some?
    ensures r.Ok? ==> r.value == (c.value.kwargs.value.content, c.value.kwargs.value.usage.value)
  {
    match c
    case Err(m) => Err(m)
    case Ok(Chunk(None)) => Err("Cannot read properties of undefined (reading 'content')")
    case Ok(Chunk(Some(ChunkKwargs(_, None)))) => Err("Cannot read properties of undefined (reading 'total_tokens')")
    case Ok(Chunk(Some(ChunkKwargs(content, Some(v))))) => Ok((content, v))
  }
}
