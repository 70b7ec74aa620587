/**
 * `GeminiService` of app/gemini/service.py: `embed` (cache-aside over JSON text with a
 * TTL, cache and decode errors swallowed), `_embedding_cache_key`, `_log_and_time` (correlation id, timing and
 * structured records around `_retry`) and `safe_json_parse`. `_retry` is the same loop
 * as `retry_async` and runs through `Retry.RetryAsync`; the parse chain is
 * `JsonRepair.SafeJsonParse`. The SDK's `embed_content`, SHA-256, the UUID source, the
 * clock, `json.loads`/`json.dumps` and the `rag_embedding` prompt template are parameters.
 */
module Service {
  import opened Wrappers
  import opened JsonValue
  import Text
  import Numeric
  import Retry
  import KeyValue
  import Embeddings
  import JsonRepair

  const DefaultEmbeddingTtl: nat := 60 * 60 * 24 * 30

  /** One structured log record of `_log_and_time`. */
  datatype LogRecord =
    | CallStart(operation: string, correlationId: string)
    | CallSuccess(operation: string, correlationId: string, durationMs: int)
    | CallFailure(operation: string, correlationId: string, durationMs: int, error: string)
  {
    function Cid(): string {
      match this
      case CallStart(_, cid) => cid
      case CallSuccess(_, cid, _) => cid
      case CallFailure(_, cid, _, _) => cid
    }
  }

  /** `int(duration * 1000)` for a duration in seconds. */
  function DurationMs(start: real, finish: real): int {
    Numeric.Trunc((finish - start) * 1000.0)
  }

  /** The records `_log_and_time` writes for a call that ended with `outcome`. */
  function CallRecords<T>(hasLogger: bool, operation: string, cid: string, start: real, finish: real,
                          outcome: Retry.Outcome<T>): seq<LogRecord> {
    if !hasLogger then []
    else
      [CallStart(operation, cid)]
      + match outcome
        case Raised(e) => [CallFailure(operation, cid, DurationMs(start, finish), e.message)]
        case _ => [CallSuccess(operation, cid, DurationMs(start, finish))]
  }

  /** A call writes one start record and one end record, all under the same correlation id; no logger, no records. */
  lemma CallRecordsShape<T>(hasLogger: bool, operation: string, cid: string, start: real, finish: real,
                            outcome: Retry.Outcome<T>)
    ensures var recs := CallRecords(hasLogger, operation, cid, start, finish, outcome);
      && (!hasLogger ==> recs == [])
      && (hasLogger ==>
            && |recs| == 2 && recs[0] == CallStart(operation, cid)
            && (recs[1].CallFailure? <==> outcome.Raised?)
            && (outcome.Raised? ==> recs[1].error == outcome.error.message))
      && forall k :: 0 <= k < |recs| ==> recs[k].Cid() == cid
  {
  }

  class GeminiService {
    /** `self.redis`: holds embeddings as JSON text. */
    const redis: KeyValue.Store?<string>
    const codec: Embeddings.Codec
    const hasLogger: bool
    const embeddingModel: string
    const chatModel: string
    const embTtl: nat
    const sha256: string -> Embeddings.Digest
    /** `(await self.prompts.get("rag_embedding")).format(query=text)`. */
    const embeddingPrompt: string -> string
    /** `self.client.embed_content`: its answer to the k-th invocation with a content. */
    const embedContent: string -> nat -> Result<seq<real>>

    constructor (redis: KeyValue.Store?<string>, codec: Embeddings.Codec, hasLogger: bool, embTtl: nat,
                 sha256: string -> Embeddings.Digest, embeddingPrompt: string -> string,
                 embedContent: string -> nat -> Result<seq<real>>)
      ensures this.redis == redis && this.codec == codec && this.hasLogger == hasLogger && this.embTtl == embTtl
      ensures this.sha256 == sha256 && this.embeddingPrompt == embeddingPrompt && this.embedContent == embedContent
      ensures embeddingModel == "models/text-embedding-004" && chatModel == "models/gemini-2.0-flash"
    {
      this.redis := redis;
      this.codec := codec;
      this.hasLogger := hasLogger;
      this.embTtl := embTtl;
      this.sha256 := sha256;
      this.embeddingPrompt := embeddingPrompt;
      this.embedContent := embedContent;
      embeddingModel := "models/text-embedding-004";
      chatModel := "models/gemini-2.0-flash";
    }

    /** `_embedding_cache_key(text)`: the embeddings key format under this service's model. */
    function EmbeddingCacheKey(text: string): (k: string)
      ensures k == Embeddings.CacheKey(embeddingModel, sha256(text))
      ensures k[..4] == "emb:"
    {
      Embeddings.CacheKey(embeddingModel, sha256(text))
    }

    /**
     * `_log_and_time(operation, func)` with correlation id `cid` and clock readings `start`
     * and `finish`: `_retry`'s outcome, unchanged, and the records written around it.
     */
    method LogAndTime<T>(operation: string, call: nat -> Result<T>, cid: string, start: real, finish: real)
      returns (outcome: Retry.Outcome<T>, invocations: nat, sleeps: seq<real>, records: seq<LogRecord>)
      ensures Retry.Run(outcome, invocations, sleeps) == Retry.From(call, Retry.DefaultRetries, Retry.DefaultBaseDelay, 1)
      ensures records == CallRecords(hasLogger, operation, cid, start, finish, outcome)
    {
      records := [];
      if hasLogger {
        records := records + [CallStart(operation, cid)];
      }
      outcome, invocations, sleeps := Retry.RetryAsync(call, Retry.DefaultRetries, Retry.DefaultBaseDelay);
      var duration := finish - start;
      if hasLogger {
        match outcome
        case Raised(e) =>
          records := records + [CallFailure(operation, cid, Numeric.Trunc(duration * 1000.0), e.message)];
        case _ =>
          records := records + [CallSuccess(operation, cid, Numeric.Trunc(duration * 1000.0))];
      }
    }

    /** What the retried `embed_content` call does for `text`. */
    function ModelRun(text: string): Retry.Run<seq<real>> {
      Retry.From(embedContent(embeddingPrompt(text)), Retry.DefaultRetries, Retry.DefaultBaseDelay, 1)
    }

    /**
     * What the guarded cache read of `embed` yields for `key`: the decoded cached text when
     * it is non-empty and decodes. A failing read or decode is swallowed and counts as a miss.
     */
    function CachedVector(reachable: bool, entries: map<string, string>, key: string): (hit: Option<seq<real>>)
      ensures hit.Some? <==> reachable && Embeddings.Cached(entries, key) && codec.loads(entries[key]).Some?
      ensures hit.Some? ==> hit == codec.loads(entries[key])
    {
      if reachable && Embeddings.Cached(entries, key) then codec.loads(entries[key]) else None
    }

    /**
     * `embed(text)`, with the correlation id and clock readings of its `_log_and_time`.
     * Returns the result, the number of `embed_content` invocations and the structured records.
     */
    method Embed(text: string, cid: string, start: real, finish: real)
      returns (r: Result<seq<real>>, invocations: nat, records: seq<LogRecord>)
      modifies redis
      ensures redis != null ==> redis.reachable == old(redis.reachable)
      // blank text: no cache access and no model call
      ensures Text.IsBlank(text) ==> r == Ok([]) && invocations == 0 && records == []
      ensures Text.IsBlank(text) && redis != null ==> redis.ops == old(redis.ops) && redis.entries == old(redis.entries)
      // a hit returns the decoded cached vector and never calls the model
      ensures !Text.IsBlank(text) && redis != null && CachedVector(old(redis.reachable), old(redis.entries), EmbeddingCacheKey(text)).Some? ==>
        r == Ok(CachedVector(old(redis.reachable), old(redis.entries), EmbeddingCacheKey(text)).value) && invocations == 0 && records == []
        && redis.ops == old(redis.ops) + [KeyValue.GetOp(EmbeddingCacheKey(text))]
        && redis.entries == old(redis.entries)
      // any other case calls the model through the retry loop; cache and decode errors are swallowed
      ensures !Text.IsBlank(text) && (redis == null || CachedVector(old(redis.reachable), old(redis.entries), EmbeddingCacheKey(text)).None?) ==>
        invocations == ModelRun(text).invocations
        && records == CallRecords(hasLogger, "embed_content", cid, start, finish, ModelRun(text).outcome)
        && r == Embeddings.FromModel(ModelRun(text))
      // a returned vector is written once, as JSON, with the service's TTL
      ensures !Text.IsBlank(text) && redis != null && CachedVector(old(redis.reachable), old(redis.entries), EmbeddingCacheKey(text)).None? ==>
        if r.Ok? then
          redis.ops == old(redis.ops) + [KeyValue.GetOp(EmbeddingCacheKey(text)), KeyValue.SetOp(EmbeddingCacheKey(text), codec.dumps(r.value), Some(embTtl))]
          && redis.entries == (if old(redis.reachable) then old(redis.entries)[EmbeddingCacheKey(text) := codec.dumps(r.value)] else old(redis.entries))
        else
          redis.ops == old(redis.ops) + [KeyValue.GetOp(EmbeddingCacheKey(text))] && redis.entries == old(redis.entries)
    {
      if Text.IsBlank(text) {
        return Ok([]), 0, [];
      }
      var key := EmbeddingCacheKey(text);
      var cached := CachedEmbedding(key);
      if cached.Some? {
        return Ok(cached.value), 0, [];
      }
      r, invocations, records := EmbedUncached(text, key, cid, start, finish);
    }

    /** The guarded cache read of `embed`: a failing read, an empty text or an undecodable one counts as a miss. */
    method CachedEmbedding(key: string) returns (hit: Option<seq<real>>)
      modifies redis
      ensures redis == null ==> hit.None?
      ensures redis != null ==>
        && hit == CachedVector(redis.reachable, redis.entries, key)
        && redis.reachable == old(redis.reachable) && redis.entries == old(redis.entries)
        && redis.ops == old(redis.ops) + [KeyValue.GetOp(key)]
    {
      hit := None;
      if redis != null {
        var cached := redis.Get(key);
        if cached.Ok? && cached.value.Some? && cached.value.value != "" {
          hit := codec.loads(cached.value.value);
        }
      }
    }

    /**
     * The cache-miss path of `embed`: the retried model call, whose vector, when one is
     * returned, is written under `key` with the service's TTL.
     */
    method EmbedUncached(text: string, key: string, cid: string, start: real, finish: real)
      returns (r: Result<seq<real>>, invocations: nat, records: seq<LogRecord>)
      modifies redis
      ensures invocations == ModelRun(text).invocations
      ensures records == CallRecords(hasLogger, "embed_content", cid, start, finish, ModelRun(text).outcome)
      ensures r == Embeddings.FromModel(ModelRun(text))
      ensures redis != null ==> redis.reachable == old(redis.reachable)
      ensures redis != null && r.Ok? ==>
        redis.ops == old(redis.ops) + [KeyValue.SetOp(key, codec.dumps(r.value), Some(embTtl))]
        && redis.entries == (if redis.reachable then old(redis.entries)[key := codec.dumps(r.value)] else old(redis.entries))
      ensures redis != null && r.Err? ==> redis.ops == old(redis.ops) && redis.entries == old(redis.entries)
    {
      var prompt := embeddingPrompt(text);
      var outcome, n, sleeps;
      outcome, n, sleeps, records := LogAndTime("embed_content", embedContent(prompt), cid, start, finish);
      assert outcome == ModelRun(text).outcome && n == ModelRun(text).invocations;
      invocations := n;
      match outcome
      case Raised(err) =>
        return Err(err), invocations, records;
      case FellThrough =>
        return Err(Embeddings.NoResponse), invocations, records;
      case Returned(embedding) =>
        if redis != null {
          var written := redis.Set(key, codec.dumps(embedding), Some(embTtl));
        }
        r := Ok(embedding);
    }

    /** `safe_json_parse(text)`: the same stage chain as app/gemini/json_utils.py. */
    function SafeJsonParse(parse: JsonRepair.Parser, text: string): (r: Json)
      ensures parse(text).Some? ==> r == parse(text).value
      ensures r == match JsonRepair.FirstParse(parse, JsonRepair.Candidates(text))
                   case Some(v) => v
                   case None => Single("raw_text", text)
    {
      JsonRepair.StagesInOrder(parse, text);
      JsonRepair.SafeJsonParse(parse, text)
    }
  }

  /**
   * Embedding the same text twice against a reachable cache whose JSON encoding
   * round-trips: the second call is a hit, makes no model call and returns what the
   * first call returned.
   */
  method EmbedTwice(service: GeminiService, text: string, cid1: string, cid2: string, t0: real, t1: real)
    returns (first: Result<seq<real>>, second: Result<seq<real>>, secondCalls: nat)
    requires service.redis != null && service.redis.reachable
    requires Embeddings.RoundTrips(service.codec)
    modifies service.redis
    ensures first.Ok? ==> second == first && secondCalls == 0
  {
    var n1, recs;
    first, n1, recs := service.Embed(text, cid1, t0, t1);
    second, secondCalls, recs := service.Embed(text, cid2, t0, t1);
  }

  lemma TransientMessages()
    ensures Retry.IsTransient("429 rate limit")
    ensures Retry.IsTransient("timeout")
  {
    assert Text.StartsWith("429 rate limit", "429");
    var t := Text.Lower("timeout");
    assert t == "timeout";
    assert Text.StartsWith(t, "timeout");
  }

  /**
   * The retry test: `embed` on a miss where `embed_content` fails with "429 rate limit",
   * then "timeout", then returns `[1, 2, 3]`: the vector comes back after exactly three calls.
   */
  method RetryThroughEmbed(service: GeminiService, text: string, cid: string, t0: real, t1: real)
    returns (r: Result<seq<real>>, invocations: nat)
    requires !Text.IsBlank(text)
    requires service.redis != null && service.redis.reachable && !Embeddings.Cached(service.redis.entries, service.EmbeddingCacheKey(text))
    requires var reply := service.embedContent(service.embeddingPrompt(text));
      reply(1) == Err(Error(ExternalError, "429 rate limit"))
      && reply(2) == Err(Error(ExternalError, "timeout"))
      && reply(3) == Ok([1.0, 2.0, 3.0])
    modifies service.redis
    ensures r == Ok([1.0, 2.0, 3.0]) && invocations == 3
  {
    TransientMessages();
    Retry.FirstSuccess(service.embedContent(service.embeddingPrompt(text)), Retry.DefaultRetries, Retry.DefaultBaseDelay, 3);
    var recs;
    r, invocations, recs := service.Embed(text, cid, t0, t1);
  }
}
