/**
 * app/gemini/embeddings.py: `_cache_key` and the free function `embed(client, text)`,
 * a cache-aside lookup around one retried model call. The client's Redis handle
 * (`client.redis`, possibly absent, holding JSON text) and embedding model id are
 * parameters, and so are SHA-256, `json.loads`/`json.dumps` and the model's replies.
 * `client.call` is `retry_async` with logging around it (app/gemini/client.py is not
 * part of this model), so the call runs through `Retry.RetryAsync`.
 */
module Embeddings {
  import opened Wrappers
  import opened JsonValue
  import Text
  import Retry
  import KeyValue

  /** A SHA-256 hex digest: always 64 characters. */
  type Digest = s: string | |s| == 64 witness seq(64, _ => '0')

  /** `_cache_key(model, text)` given the text's digest. */
  function CacheKey(model: string, digest: Digest): string {
    "emb:" + model + ":" + digest
  }

  /**
   * Because the digest has a fixed length, the key determines both the model id and the
   * digest: equal keys come exactly from equal (model, digest) pairs.
   */
  lemma CacheKeyInjective(m1: string, d1: Digest, m2: string, d2: Digest)
    ensures CacheKey(m1, d1) == CacheKey(m2, d2) <==> m1 == m2 && d1 == d2
  {
    if CacheKey(m1, d1) == CacheKey(m2, d2) {
      var k := CacheKey(m1, d1);
      assert |m1| == |m2|;
      assert d1 == k[|k| - 64..] == d2;
      assert m1 == k[4..4 + |m1|] == m2;
    }
  }

  /** The content sent to the model on a miss. */
  function EmbedContent(text: string): string {
    "Embed this text:\n" + text
  }

  /** `resp.embedding` when `retry_async` fell through and returned `None`. */
  const NoResponse := Error(AttributeError, "'NoneType' object has no attribute 'embedding'")

  /** What the retried model call does with the content built from `text`. */
  function ModelRun(reply: string -> nat -> Result<seq<real>>, text: string): Retry.Run<seq<real>> {
    Retry.From(reply(EmbedContent(text)), Retry.DefaultRetries, Retry.DefaultBaseDelay, 1)
  }

  /** The result `embed` returns when it reaches the model. */
  function FromModel(run: Retry.Run<seq<real>>): Result<seq<real>> {
    match run.outcome
    case Returned(e) => Ok(e)
    case Raised(err) => Err(err)
    case FellThrough => Err(NoResponse)
  }

  /** `json.loads` and `json.dumps` on embedding vectors: `loads` is `None` where it raises. */
  datatype Codec = Codec(loads: string -> Option<seq<real>>, dumps: seq<real> -> string)

  /** Every vector survives the cache's JSON encoding, and no encoding is the falsy `""`. */
  ghost predicate RoundTrips(codec: Codec) {
    forall v :: codec.loads(codec.dumps(v)) == Some(v) && codec.dumps(v) != ""
  }

  /** What `embed` needs of the client: the model id, SHA-256, the model's replies and the codec. */
  datatype Embedder = Embedder(
    model: string,
    sha256: string -> Digest,
    /** `embed_content`'s answer to the k-th invocation with a content. */
    reply: string -> nat -> Result<seq<real>>,
    codec: Codec)

  /** What a caller can observe of `client.redis`: absent, or its reachability and entries. */
  datatype CacheView = NoCache | Cache(reachable: bool, entries: map<string, string>)

  function View(redis: KeyValue.Store?<string>): CacheView
    reads (if redis == null then {} else {redis})`reachable, (if redis == null then {} else {redis})`entries
  {
    if redis == null then NoCache else Cache(redis.reachable, redis.entries)
  }

  /** `if cached:` for the text stored under `key`: present and non-empty. */
  predicate Cached(entries: map<string, string>, key: string) {
    key in entries && entries[key] != ""
  }

  function Key(e: Embedder, text: string): string {
    CacheKey(e.model, e.sha256(text))
  }

  /** Whether `embed` gets as far as the model call. */
  predicate Misses(view: CacheView, e: Embedder, text: string) {
    !Text.IsBlank(text) && (view.NoCache? || (view.reachable && !Cached(view.entries, Key(e, text))))
  }

  /** The result of `embed(client, text)` against a cache in state `view`. */
  function EmbedResult(view: CacheView, e: Embedder, text: string): Result<seq<real>> {
    if Text.IsBlank(text) then Ok([])
    else if view.Cache? && !view.reachable then Err(KeyValue.Unreachable)
    else if view.Cache? && Cached(view.entries, Key(e, text)) then
      match e.codec.loads(view.entries[Key(e, text)])
      case Some(v) => Ok(v)
      case None => Err(DecodeFailure)
    else FromModel(ModelRun(e.reply, text))
  }

  /** The number of model invocations `embed` makes. */
  function EmbedInvocations(view: CacheView, e: Embedder, text: string): nat {
    if Misses(view, e, text) then ModelRun(e.reply, text).invocations else 0
  }

  /** The cache after `embed`: only a returned vector is written, under its key, as JSON. */
  function EmbedView(view: CacheView, e: Embedder, text: string): CacheView {
    if view.Cache? && Misses(view, e, text) && EmbedResult(view, e, text).Ok? then
      view.(entries := view.entries[Key(e, text) := e.codec.dumps(EmbedResult(view, e, text).value)])
    else view
  }

  /** The operations `embed` sends to the cache. */
  function EmbedOps(view: CacheView, e: Embedder, text: string): seq<KeyValue.Op<string>> {
    if Text.IsBlank(text) || view.NoCache? then []
    else if Misses(view, e, text) && EmbedResult(view, e, text).Ok? then
      [KeyValue.GetOp(Key(e, text)), KeyValue.SetOp(Key(e, text), e.codec.dumps(EmbedResult(view, e, text).value), None)]
    else [KeyValue.GetOp(Key(e, text))]
  }

  /**
   * The cases of `embed`: blank text is `[]` with no cache access; a cache error and an
   * undecodable cached text propagate; a non-empty cached text is decoded without a model
   * call; otherwise the retried call's vector is returned and written without a TTL.
   */
  lemma EmbedCases(view: CacheView, e: Embedder, text: string)
    ensures Text.IsBlank(text) ==> EmbedResult(view, e, text) == Ok([]) && EmbedOps(view, e, text) == []
    ensures !Text.IsBlank(text) && view.Cache? && !view.reachable ==>
      EmbedResult(view, e, text) == Err(KeyValue.Unreachable) && EmbedOps(view, e, text) == [KeyValue.GetOp(Key(e, text))]
    ensures !Text.IsBlank(text) && view.Cache? && view.reachable && Cached(view.entries, Key(e, text)) ==>
      && EmbedInvocations(view, e, text) == 0 && EmbedView(view, e, text) == view
      && EmbedOps(view, e, text) == [KeyValue.GetOp(Key(e, text))]
      && (e.codec.loads(view.entries[Key(e, text)]).Some? ==> EmbedResult(view, e, text) == Ok(e.codec.loads(view.entries[Key(e, text)]).value))
      && (e.codec.loads(view.entries[Key(e, text)]).None? ==> EmbedResult(view, e, text) == Err(DecodeFailure))
    ensures Misses(view, e, text) ==>
      && EmbedResult(view, e, text) == FromModel(ModelRun(e.reply, text))
      && EmbedInvocations(view, e, text) == ModelRun(e.reply, text).invocations
    ensures Misses(view, e, text) && view.Cache? && ModelRun(e.reply, text).outcome.Returned? ==>
      var v := ModelRun(e.reply, text).outcome.value;
      && EmbedView(view, e, text) == Cache(true, view.entries[Key(e, text) := e.codec.dumps(v)])
      && EmbedOps(view, e, text) == [KeyValue.GetOp(Key(e, text)), KeyValue.SetOp(Key(e, text), e.codec.dumps(v), None)]
    ensures Misses(view, e, text) && view.Cache? && !ModelRun(e.reply, text).outcome.Returned? ==>
      EmbedOps(view, e, text) == [KeyValue.GetOp(Key(e, text))]
    ensures !Misses(view, e, text) || !ModelRun(e.reply, text).outcome.Returned? ==> EmbedView(view, e, text) == view
    ensures view.NoCache? ==> EmbedOps(view, e, text) == [] && EmbedView(view, e, text) == view
  {
  }

  /**
   * With a codec that round-trips, a vector the model returned is found in the cache by
   * the next `embed` of the same text, which makes no model call and returns it again.
   */
  lemma CachedAfterMiss(view: CacheView, e: Embedder, text: string)
    requires view.Cache? && Misses(view, e, text) && EmbedResult(view, e, text).Ok?
    requires RoundTrips(e.codec)
    ensures var after := EmbedView(view, e, text);
      && !Misses(after, e, text)
      && EmbedResult(after, e, text) == EmbedResult(view, e, text)
      && EmbedInvocations(after, e, text) == 0
  {
    var v := EmbedResult(view, e, text).value;
    assert e.codec.loads(e.codec.dumps(v)) == Some(v) && e.codec.dumps(v) != "";
  }

  /** `client.redis.get(key)` and the decoding of a non-empty cached text: `None` on a miss. */
  method Lookup(redis: KeyValue.Store<string>, e: Embedder, text: string) returns (hit: Option<Result<seq<real>>>)
    requires !Text.IsBlank(text)
    modifies redis`ops
    ensures redis.ops == old(redis.ops) + [KeyValue.GetOp(Key(e, text))]
    ensures hit.None? <==> Misses(View(redis), e, text)
    ensures hit.Some? ==> hit.value == EmbedResult(View(redis), e, text)
  {
    var key := Key(e, text);
    var cached := redis.Get(key);
    assert View(redis) == Cache(redis.reachable, redis.entries);
    if cached.Err? {
      return Some(Err(cached.error));
    }
    if cached.value.Some? && cached.value.value != "" {
      assert Cached(redis.entries, key) && redis.entries[key] == cached.value.value;
      var decoded := e.codec.loads(cached.value.value);
      if decoded.None? {
        return Some(Err(DecodeFailure));
      }
      return Some(Ok(decoded.value));
    }
    assert !Cached(redis.entries, key);
    hit := None;
  }

  /**
   * The miss path of `embed`: the retried model call on `"Embed this text:\n" + text`, and
   * on success `client.redis.set(key, json.dumps(vector))` without a TTL.
   */
  method EmbedMiss(redis: KeyValue.Store?<string>, e: Embedder, text: string) returns (r: Result<seq<real>>, invocations: nat)
    requires Misses(View(redis), e, text)
    modifies redis
    ensures r == EmbedResult(old(View(redis)), e, text) && invocations == EmbedInvocations(old(View(redis)), e, text)
    ensures View(redis) == EmbedView(old(View(redis)), e, text)
    ensures redis != null ==>
      redis.ops == old(redis.ops) + if r.Ok? then [KeyValue.SetOp(Key(e, text), e.codec.dumps(r.value), None)] else []
  {
    var outcome, n, sleeps := Retry.RetryAsync(e.reply(EmbedContent(text)), Retry.DefaultRetries, Retry.DefaultBaseDelay);
    invocations := n;
    match outcome
    case Raised(err) =>
      r := Err(err);
    case FellThrough =>
      r := Err(NoResponse);
    case Returned(embedding) =>
      r := Ok(embedding);
      if redis != null {
        var written := redis.Set(Key(e, text), e.codec.dumps(embedding), None);
      }
  }

  /** A text that is not blank and not a miss: one `get`, no model call, no write. */
  lemma HitEffects(view: CacheView, e: Embedder, text: string)
    requires !Text.IsBlank(text) && view.Cache? && !Misses(view, e, text)
    ensures EmbedOps(view, e, text) == [KeyValue.GetOp(Key(e, text))]
    ensures EmbedInvocations(view, e, text) == 0 && EmbedView(view, e, text) == view
  {
  }

  /** A miss on a present cache: the `get`, then the `set` exactly when a vector came back. */
  lemma MissOps(view: CacheView, e: Embedder, text: string)
    requires view.Cache? && Misses(view, e, text)
    ensures var r := EmbedResult(view, e, text);
      EmbedOps(view, e, text) ==
        [KeyValue.GetOp(Key(e, text))] + if r.Ok? then [KeyValue.SetOp(Key(e, text), e.codec.dumps(r.value), None)] else []
  {
  }

  /** `embed` once the text is known not to be blank and `client.redis` is present. */
  method EmbedWithCache(redis: KeyValue.Store<string>, e: Embedder, text: string)
    returns (r: Result<seq<real>>, invocations: nat)
    requires !Text.IsBlank(text)
    modifies redis
    ensures r == EmbedResult(old(View(redis)), e, text)
    ensures invocations == EmbedInvocations(old(View(redis)), e, text)
    ensures View(redis) == EmbedView(old(View(redis)), e, text)
    ensures redis.ops == old(redis.ops) + EmbedOps(old(View(redis)), e, text)
  {
    ghost var view := View(redis);
    var hit := Lookup(redis, e, text);
    assert View(redis) == view;
    if hit.Some? {
      HitEffects(view, e, text);
      return hit.value, 0;
    }
    MissOps(view, e, text);
    r, invocations := EmbedMiss(redis, e, text);
  }

  /**
   * `embed(client, text)` against `client.redis` (possibly absent). Returns the result
   * and the number of model invocations.
   */
  method Embed(redis: KeyValue.Store?<string>, e: Embedder, text: string)
    returns (r: Result<seq<real>>, invocations: nat)
    modifies redis
    ensures r == EmbedResult(old(View(redis)), e, text)
    ensures invocations == EmbedInvocations(old(View(redis)), e, text)
    ensures View(redis) == EmbedView(old(View(redis)), e, text)
    ensures redis != null ==> redis.ops == old(redis.ops) + EmbedOps(old(View(redis)), e, text)
  {
    if Text.IsBlank(text) {
      return Ok([]), 0;
    }
    if redis == null {
      r, invocations := EmbedMiss(redis, e, text);
    } else {
      r, invocations := EmbedWithCache(redis, e, text);
    }
  }
}
