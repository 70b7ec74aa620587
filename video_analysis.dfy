/**
 * `analyze_video_and_jd(client, video_path)` of app/gemini/video_analysis.py: a cache
 * lookup under the video's hash, and on a miss the frame pipeline, one retried vision
 * call, validation with the OCR split as fallback, a cache write and the text analysis.
 * The client's Redis handle (possibly absent) is the one mutable collaborator; the
 * vision model, the prompt, the file hash, the codecs, `json.loads`, the Redis client's
 * encoding of the written dict and `text_analysis.analyze_resume_and_jd` are parameters.
 */
module VideoAnalysis {
  import opened Wrappers
  import opened JsonValue
  import Retry
  import KeyValue
  import JsonRepair
  import VideoExtraction
  import Seqs

  /** One element of the vision request's `contents`. */
  datatype Part = PromptPart(text: string) | FramePart(frame: VideoExtraction.Prepared)

  /** What the orchestration sees of the outside world. */
  datatype Env = Env(
    /** `compute_video_hash(path)`. */
    videoHash: string -> string,
    /** `cv2.VideoCapture(path)`. */
    capture: string -> VideoExtraction.Capture,
    phash: VideoExtraction.Image -> VideoExtraction.PHash,
    encode: VideoExtraction.Image -> seq<bv8>,
    ocr: seq<bv8> -> seq<string>,
    /** `await client.prompts.get("analyze_video")`. */
    prompt: string,
    /** The vision model's `resp.text` for a request, per invocation: `None` when the response has no text. */
    vision: seq<Part> -> nat -> Result<Option<string>>,
    parse: JsonRepair.Parser,
    /** How the Redis client encodes the extracted dict it is asked to store. */
    encodeValue: Json -> string,
    /** `client.text_analysis.analyze_resume_and_jd`. */
    analyze: (Json, Json) -> Result<Json>)

  /** `resp.text` when the retried call fell through and returned `None`. */
  const NoText := Error(AttributeError, "'NoneType' object has no attribute 'text'")
  /**
   * `safe_json_parse(None)`: the failing `json.loads` is caught, but the fence-stripping
   * `re.sub` on `None` raises.
   */
  const NoneText := Error(TypeError, "expected string or bytes-like object, got 'NoneType'")

  function CacheKey(videoHash: string): string {
    "video_extract:" + videoHash
  }

  /** The frames that reach the model: sampled every 300 ms, then de-duplicated at threshold 5. */
  function UniqueFrames(env: Env, path: string): seq<VideoExtraction.Image> {
    var cap := env.capture(path);
    var raw := if cap.isOpen then VideoExtraction.Images(VideoExtraction.Sampled(cap.stream, 300, -300)) else [];
    VideoExtraction.Deduped(raw, env.phash, VideoExtraction.DefaultThreshold, None)
  }

  function PreparedFrames(env: Env, path: string): seq<VideoExtraction.Prepared> {
    var frames := UniqueFrames(env, path);
    seq(|frames|, k requires 0 <= k < |frames| => VideoExtraction.Prepared(VideoExtraction.JpegMime, env.encode(frames[k])))
  }

  /** `[prompt] + prepared`. */
  function Contents(prompt: string, prepared: seq<VideoExtraction.Prepared>): (c: seq<Part>)
    ensures |c| == |prepared| + 1 && c[0] == PromptPart(prompt)
    ensures forall k :: 0 <= k < |prepared| ==> c[k + 1] == FramePart(prepared[k])
  {
    [PromptPart(prompt)] + seq(|prepared|, k requires 0 <= k < |prepared| => FramePart(prepared[k]))
  }

  function VisionRun(env: Env, path: string): Retry.Run<Option<string>> {
    Retry.From(env.vision(Contents(env.prompt, PreparedFrames(env, path))), Retry.DefaultRetries, Retry.DefaultBaseDelay, 1)
  }

  /** `validate_extraction(parsed) or ocr_fallback(prepared)` as written. */
  function ExtractedAsWritten(parsed: Json, fallback: Json): Result<Json> {
    match VideoExtraction.ValidateExtraction(parsed)
    case Err(e) => Err(e)
    case Ok(v) => if Truthy(v) then Ok(v) else Ok(fallback)
  }

  /** Validation either raises or returns a truthy dict, so the OCR branch is never taken. */
  lemma OcrFallbackUnreachable(parsed: Json, fallback: Json)
    ensures ExtractedAsWritten(parsed, fallback) == VideoExtraction.ValidateExtraction(parsed)
  {
  }

  /** The evident intent: the OCR split replaces a vision extraction that does not validate. */
  function Extracted(parsed: Json, fallback: Json): (r: Result<Json>)
    ensures VideoExtraction.ValidateExtraction(parsed).Ok? ==> r == Ok(parsed)
    ensures VideoExtraction.ValidateExtraction(parsed).Err? ==> r == Ok(fallback)
  {
    match VideoExtraction.ValidateExtraction(parsed)
    case Ok(v) => Ok(v)
    case Err(_) => Ok(fallback)
  }

  /** A blocked extraction: the code as written raises, the corrected orchestration falls back to OCR. */
  lemma BlockedExtractionFallsBack(resume: Json, jd: Json, fallback: Json)
    ensures var parsed := JObj(map["resume_text" := resume, "jd_text" := jd, "blocked" := JBool(true)]);
      && ExtractedAsWritten(parsed, fallback) == Err(VideoExtraction.SafetyBlock)
      && Extracted(parsed, fallback) == Ok(fallback)
  {
    var parsed := JObj(map["resume_text" := resume, "jd_text" := jd, "blocked" := JBool(true)]);
    assert Get(parsed.fields, "blocked", JBool(false)) == JBool(true);
  }

  /** The OCR split of the prepared frames. */
  function OcrOf(env: Env, prepared: seq<VideoExtraction.Prepared>): Json {
    var texts := VideoExtraction.FrameTexts(prepared, env.ocr);
    VideoExtraction.OcrResult(Seqs.Filter(VideoExtraction.IsResumeText, texts), Seqs.Filter(VideoExtraction.IsJdText, texts))
  }

  /** `safe_json_parse(resp.text)` on a miss, or what the vision call or the parse raises. */
  function VisionReply(env: Env, path: string): Result<Json> {
    match VisionRun(env, path).outcome
    case Raised(e) => Err(e)
    case FellThrough => Err(NoText)
    case Returned(None) => Err(NoneText)
    case Returned(Some(text)) => Ok(JsonRepair.SafeJsonParse(env.parse, text))
  }

  /** Line 39 as written on a miss: the validated reply, or the validation's `GeminiSafetyError`. */
  function ExtractionAsWritten(env: Env, path: string): Result<Json> {
    match VisionReply(env, path)
    case Err(e) => Err(e)
    case Ok(parsed) => ExtractedAsWritten(parsed, OcrOf(env, PreparedFrames(env, path)))
  }

  /** The corrected extraction on a miss: the validated reply, or the OCR split when it does not validate. */
  function Extraction(env: Env, path: string): Result<Json> {
    match VisionReply(env, path)
    case Err(e) => Err(e)
    case Ok(parsed) => Extracted(parsed, OcrOf(env, PreparedFrames(env, path)))
  }

  /**
   * On a reply that does not validate, the code as written raises the validation's error,
   * while the corrected extraction is the OCR split of the same prepared frames. On a reply
   * that validates, both are that reply.
   */
  lemma InvalidReplyRaisesAsWritten(env: Env, path: string)
    requires VisionReply(env, path).Ok?
    ensures var parsed := VisionReply(env, path).value;
      && (VideoExtraction.ValidateExtraction(parsed).Err? ==>
            && ExtractionAsWritten(env, path) == Err(VideoExtraction.ValidateExtraction(parsed).error)
            && Extraction(env, path) == Ok(OcrOf(env, PreparedFrames(env, path))))
      && (VideoExtraction.ValidateExtraction(parsed).Ok? ==>
            ExtractionAsWritten(env, path) == Extraction(env, path) == Ok(parsed))
  {
    OcrFallbackUnreachable(VisionReply(env, path).value, OcrOf(env, PreparedFrames(env, path)));
  }

  /** Any extraction that gets through holds both fields, as written or corrected. */
  lemma ExtractionHasFields(env: Env, path: string)
    ensures Extraction(env, path).Ok? ==>
      var x := Extraction(env, path).value;
      x.JObj? && "resume_text" in x.fields && "jd_text" in x.fields
    ensures ExtractionAsWritten(env, path).Ok? ==>
      var x := ExtractionAsWritten(env, path).value;
      x.JObj? && "resume_text" in x.fields && "jd_text" in x.fields
  {
    if VisionReply(env, path).Ok? {
      OcrFallbackUnreachable(VisionReply(env, path).value, OcrOf(env, PreparedFrames(env, path)));
    }
  }

  /** `analyze_resume_and_jd(data["resume_text"], data["jd_text"])`. */
  function AnalyzeFields(env: Env, data: Json): (r: Result<Json>)
    ensures data.JObj? && "resume_text" in data.fields && "jd_text" in data.fields ==>
      r == env.analyze(data.fields["resume_text"], data.fields["jd_text"])
    ensures !data.JObj? ==> r.Err? && r.error.kind == TypeError
  {
    match Subscript(data, "resume_text")
    case Err(e) => Err(e)
    case Ok(resume) =>
      match Subscript(data, "jd_text")
      case Err(e) => Err(e)
      case Ok(jd) => env.analyze(resume, jd)
  }

  /**
   * Lines 23-30 and the parse of line 39: extract, de-duplicate and prepare the frames,
   * make the retried vision call over `[prompt] + prepared` and parse its text. Returns
   * the parsed reply, the prepared frames and the number of vision invocations.
   */
  method VisionOnMiss(env: Env, path: string) returns (reply: Result<Json>, prepared: seq<VideoExtraction.Prepared>, invocations: nat)
    ensures reply == VisionReply(env, path) && prepared == PreparedFrames(env, path)
    ensures invocations == VisionRun(env, path).invocations
  {
    var raw := VideoExtraction.ExtractRawFrames(env.capture(path), 300);
    var unique := VideoExtraction.DedupeFrames(raw, env.phash, VideoExtraction.DefaultThreshold);
    prepared := VideoExtraction.PrepareFrames(unique, env.encode);
    assert prepared == PreparedFrames(env, path);
    var content := Contents(env.prompt, prepared);
    var outcome, n, sleeps := Retry.RetryAsync(env.vision(content), Retry.DefaultRetries, Retry.DefaultBaseDelay);
    invocations := n;
    match outcome {
      case Raised(e) =>
        reply := Err(e);
      case FellThrough =>
        reply := Err(NoText);
      case Returned(text) =>
        if text.None? {
          reply := Err(NoneText);
        } else {
          reply := Ok(JsonRepair.SafeJsonParse(env.parse, text.value));
        }
    }
  }

  /** Lines 23-39 on a miss, as written: a reply that does not validate raises. */
  method ExtractOnMissAsWritten(env: Env, path: string) returns (extracted: Result<Json>, invocations: nat)
    ensures extracted == ExtractionAsWritten(env, path)
    ensures invocations == VisionRun(env, path).invocations
  {
    var reply, prepared;
    reply, prepared, invocations := VisionOnMiss(env, path);
    if reply.Err? {
      return Err(reply.error), invocations;
    }
    extracted := VideoExtraction.ValidateExtraction(reply.value);
    OcrFallbackUnreachable(reply.value, OcrOf(env, prepared));
  }

  /** Lines 23-39 on a miss, corrected: a reply that does not validate is replaced by the OCR split. */
  method ExtractOnMiss(env: Env, path: string) returns (extracted: Result<Json>, invocations: nat)
    ensures extracted == Extraction(env, path)
    ensures invocations == VisionRun(env, path).invocations
  {
    var reply, prepared;
    reply, prepared, invocations := VisionOnMiss(env, path);
    if reply.Err? {
      return Err(reply.error), invocations;
    }
    var validated := VideoExtraction.ValidateExtraction(reply.value);
    if validated.Ok? {
      extracted := Ok(validated.value);
    } else {
      var fallback := VideoExtraction.OcrFallback(prepared, env.ocr);
      extracted := Ok(fallback);
    }
  }

  predicate Hit(redis: KeyValue.Store?<string>, key: string)
    reads redis
  {
    redis != null && redis.reachable && key in redis.entries && redis.entries[key] != ""
  }

  /**
   * Lines 13-21: the lookup under the video's key. Returns the analysis of the cached
   * pair on a hit, the cache's error when it is unreachable, and `None` on a miss.
   */
  method CachedAnalysis(redis: KeyValue.Store?<string>, env: Env, key: string) returns (done: Option<Result<Json>>)
    modifies redis
    ensures redis == null ==> done.None?
    ensures redis != null ==>
      && redis.ops == old(redis.ops) + [KeyValue.GetOp(key)]
      && redis.entries == old(redis.entries) && redis.reachable == old(redis.reachable)
      && (!redis.reachable ==> done == Some(Err(KeyValue.Unreachable)))
    ensures Hit(redis, key) ==> done == Some(AnalyzeFields(env, JsonRepair.SafeJsonParse(env.parse, redis.entries[key])))
    ensures redis != null && redis.reachable && !Hit(redis, key) ==> done.None?
  {
    done := None;
    if redis != null {
      var cached := redis.Get(key);
      if cached.Err? {
        return Some(Err(cached.error));
      }
      if cached.value.Some? && cached.value.value != "" {
        var data := JsonRepair.SafeJsonParse(env.parse, cached.value.value);
        done := Some(AnalyzeFields(env, data));
      }
    }
  }

  /**
   * Lines 41-46 after a miss on a reachable cache: an extraction that failed propagates
   * with nothing written; otherwise it is written under `key` without a TTL and then its
   * pair is analysed.
   */
  method StoreAndAnalyze(redis: KeyValue.Store?<string>, env: Env, key: string, extracted: Result<Json>)
    returns (r: Result<Json>)
    requires redis != null ==> redis.reachable
    modifies redis
    ensures extracted.Err? ==> r == Err(extracted.error)
    ensures extracted.Ok? ==> r == AnalyzeFields(env, extracted.value)
    ensures redis != null ==> redis.reachable
    ensures redis != null ==>
      if extracted.Ok? then
        redis.ops == old(redis.ops) + [KeyValue.SetOp(key, env.encodeValue(extracted.value), None)]
        && redis.entries == old(redis.entries)[key := env.encodeValue(extracted.value)]
      else
        redis.ops == old(redis.ops) && redis.entries == old(redis.entries)
  {
    if extracted.Err? {
      return Err(extracted.error);
    }
    if redis != null {
      var written := redis.Set(key, env.encodeValue(extracted.value), None);
    }
    r := AnalyzeFields(env, extracted.value);
  }

  /**
   * `analyze_video_and_jd(client, video_path)` as written. A reply that does not validate
   * (a safety block, a missing field, an empty object) raises `GeminiSafetyError`: nothing
   * is cached and nothing is analysed. Returns the analysis and the number of vision
   * invocations.
   */
  method AnalyzeVideoAndJdAsWritten(redis: KeyValue.Store?<string>, env: Env, path: string)
    returns (r: Result<Json>, invocations: nat)
    modifies redis
    ensures redis != null ==> redis.reachable == old(redis.reachable)
    // cache errors are not caught
    ensures redis != null && !old(redis.reachable) ==>
      r == Err(KeyValue.Unreachable) && invocations == 0
      && redis.ops == old(redis.ops) + [KeyValue.GetOp(CacheKey(env.videoHash(path)))] && redis.entries == old(redis.entries)
    // a hit: the cached pair is analysed, no frame work and no vision call
    ensures old(Hit(redis, CacheKey(env.videoHash(path)))) ==>
      r == AnalyzeFields(env, JsonRepair.SafeJsonParse(env.parse, old(redis.entries)[CacheKey(env.videoHash(path))]))
      && invocations == 0
      && redis.ops == old(redis.ops) + [KeyValue.GetOp(CacheKey(env.videoHash(path)))] && redis.entries == old(redis.entries)
    // a miss: one retried vision call; an error, including a reply that does not validate, propagates
    ensures (redis == null || (old(redis.reachable) && !old(Hit(redis, CacheKey(env.videoHash(path)))))) ==>
      invocations == VisionRun(env, path).invocations
      && (ExtractionAsWritten(env, path).Err? ==> r == Err(ExtractionAsWritten(env, path).error))
      && (ExtractionAsWritten(env, path).Ok? ==> r == AnalyzeFields(env, ExtractionAsWritten(env, path).value))
    // only a validated extraction is written, without a TTL, before the analysis
    ensures redis != null && old(redis.reachable) && !old(Hit(redis, CacheKey(env.videoHash(path)))) ==>
      if ExtractionAsWritten(env, path).Ok? then
        redis.ops == old(redis.ops) + [KeyValue.GetOp(CacheKey(env.videoHash(path))),
                                       KeyValue.SetOp(CacheKey(env.videoHash(path)), env.encodeValue(ExtractionAsWritten(env, path).value), None)]
        && redis.entries == old(redis.entries)[CacheKey(env.videoHash(path)) := env.encodeValue(ExtractionAsWritten(env, path).value)]
      else
        redis.ops == old(redis.ops) + [KeyValue.GetOp(CacheKey(env.videoHash(path)))] && redis.entries == old(redis.entries)
  {
    var key := CacheKey(env.videoHash(path));
    var done := CachedAnalysis(redis, env, key);
    if done.Some? {
      return done.value, 0;
    }
    var extracted, n := ExtractOnMissAsWritten(env, path);
    invocations := n;
    r := StoreAndAnalyze(redis, env, key, extracted);
  }

  /**
   * `analyze_video_and_jd(client, video_path)` corrected: the OCR split is taken when the
   * vision reply does not validate, and is cached and analysed like a vision extraction.
   * Returns the analysis and the number of vision invocations.
   */
  method AnalyzeVideoAndJd(redis: KeyValue.Store?<string>, env: Env, path: string)
    returns (r: Result<Json>, invocations: nat)
    modifies redis
    ensures redis != null ==> redis.reachable == old(redis.reachable)
    // cache errors are not caught
    ensures redis != null && !old(redis.reachable) ==>
      r == Err(KeyValue.Unreachable) && invocations == 0
      && redis.ops == old(redis.ops) + [KeyValue.GetOp(CacheKey(env.videoHash(path)))] && redis.entries == old(redis.entries)
    // a hit: the cached pair is analysed, no frame work and no vision call
    ensures old(Hit(redis, CacheKey(env.videoHash(path)))) ==>
      r == AnalyzeFields(env, JsonRepair.SafeJsonParse(env.parse, old(redis.entries)[CacheKey(env.videoHash(path))]))
      && invocations == 0
      && redis.ops == old(redis.ops) + [KeyValue.GetOp(CacheKey(env.videoHash(path)))] && redis.entries == old(redis.entries)
    // a miss: one retried vision call over [prompt] + prepared frames
    ensures (redis == null || (old(redis.reachable) && !old(Hit(redis, CacheKey(env.videoHash(path)))))) ==>
      invocations == VisionRun(env, path).invocations
      && (Extraction(env, path).Err? ==> r == Err(Extraction(env, path).error))
      && (Extraction(env, path).Ok? ==> r == AnalyzeFields(env, Extraction(env, path).value))
    // the extraction is written under the same key, without a TTL, before the analysis
    ensures redis != null && old(redis.reachable) && !old(Hit(redis, CacheKey(env.videoHash(path)))) ==>
      if Extraction(env, path).Ok? then
        redis.ops == old(redis.ops) + [KeyValue.GetOp(CacheKey(env.videoHash(path))),
                                       KeyValue.SetOp(CacheKey(env.videoHash(path)), env.encodeValue(Extraction(env, path).value), None)]
        && redis.entries == old(redis.entries)[CacheKey(env.videoHash(path)) := env.encodeValue(Extraction(env, path).value)]
      else
        redis.ops == old(redis.ops) + [KeyValue.GetOp(CacheKey(env.videoHash(path)))] && redis.entries == old(redis.entries)
  {
    var key := CacheKey(env.videoHash(path));
    var done := CachedAnalysis(redis, env, key);
    if done.Some? {
      return done.value, 0;
    }
    var extracted, n := ExtractOnMiss(env, path);
    invocations := n;
    r := StoreAndAnalyze(redis, env, key, extracted);
  }
}
