# CareerPilot analysis core, modelled in Dafny

CareerPilot analyses a résumé against a job description (JD), given as text or as a
screen-recorded video. This project models the core of that pipeline and proves what it
promises:

- the LangGraph agent of `app/agent/workflow.py`: routing, optional video processing, the
  analysis cache, vector search, knowledge generation and ingestion, and the final analysis;
- the retry envelope of the Gemini calls;
- the staged JSON repair of model output, and the brace-counting extractor;
- the two embedding caches;
- the video frame pipeline: interval sampling, perceptual-hash de-duplication, JPEG
  preparation, the OCR split and validation;
- the RAG ingestion of text, files and directories;
- the UI helpers: the mock-interview evaluation parser and history, skill-matrix column
  padding, next-step link enrichment, and the timing tracker.

External systems are parameters of the model, never axioms:

- Redis is a `KeyValue.Store`, a class with an entry map, a reachability flag and a log of
  every `get`/`set` with its `ex` argument.
- The MongoDB vector index is a `VectorIndex.VectorStore`. It logs searches and upserts.
- `json.loads` is a partial function `string -> Option<Json>`. `json.dumps` is a total
  function.
- SHA-256, Python's `hash`, `imagehash.phash`, OpenCV decode and JPEG encode, EasyOCR,
  the prompt templates and each model's replies are also parameters. A model's replies are
  given per request and per invocation number, so retries can be counted.
- Clocks are parameters: real seconds where the source uses `time.time()`, whole
  milliseconds for frame positions.

Raised exceptions are modelled as `Result.Err(Error(kind, message))`, with Python's
exception class and message. `None` results are modelled as `Option`.

Modules follow the source files:

- `Retry`: `app/gemini/retry.py`.
- `Service`: `GeminiService` in `app/gemini/service.py`.
- `JsonRepair`: `app/gemini/json_utils.py`.
- `JsonHandler`: `app/utils/json_handler.py`.
- `Embeddings`: `app/gemini/embeddings.py`.
- `VideoExtraction` and `VideoAnalysis`: `app/gemini/video_extraction.py` and
  `app/gemini/video_analysis.py`.
- `Ingest`: `app/rag/ingest.py`.
- `Workflow`: `app/agent/workflow.py`.
- `MockInterview`: `app/ui/views/mock_interview_helpers.py`.
- `SkillMatrix` and `NextSteps`: the two analysis sections.
- `TimeTracking`: `app/utils/time_tracker.py`.
- Shared modules: `Wrappers`, `Text` (Python string methods), `Seqs`, `Numeric`,
  `JsonValue` (JSON values and Python truthiness), `KeyValue` and `VectorIndex`.

Stateful code is modelled as classes:

- the agent, with its graph state;
- `GeminiService`;
- the Redis and vector-store stand-ins;
- the Streamlit session history;
- the time tracker.

Loops in the source are `while`/`for` loops here. Each one is proved against a recursive
specification function, and the properties are lemmas about that function.

## Model

| member | source | states |
|---|---|---|
| Retry.SleepTime | app/gemini/retry.py:31-34 | The sleep after failed attempt k is exactly `base_delay * 2^(k-1)`: the jitter term is multiplied by zero |
| Retry.Backoffs | app/gemini/retry.py:31-42 | The sleeps of consecutive failed attempts are successive doublings of the base delay |
| Retry.RetryAsync | app/gemini/retry.py:5-42 | The loop's outcome, invocation count and sleep list are those of the specification `From(call, retries, base_delay, 1)` |
| Retry.Characterization | app/gemini/retry.py:10-42 | The run stops at the first decisive attempt n (a success, a permanent error, or attempt `retries`). It invokes the call exactly n times, sleeps n-1 times with exponential backoff, and returns or re-raises what attempt n produced. With no budget left it ends in `None` |
| Retry.InvocationBound | app/gemini/retry.py:5-10 | At most `retries` invocations; with `retries <= 0` no invocation, no sleep and `None`; the sleep count is always invocations minus one |
| Retry.FirstSuccess | app/gemini/retry.py:10-12 | If attempts 1..k-1 fail transiently and attempt k succeeds, the value of attempt k is returned after exactly k invocations and k-1 backoff sleeps |
| Retry.PermanentErrorRaisedAtOnce | app/gemini/retry.py:16-29 | A non-transient first error is re-raised after one invocation and no sleep |
| Retry.BudgetExhausted | app/gemini/retry.py:24-29 | Transient errors on every attempt re-raise the last error after `retries` invocations |
| Service.CallRecordsShape | app/gemini/service.py:41-79 | `_log_and_time` writes one start record and one success or failure record, both under one correlation id. The failure record carries `str(e)`. Without a logger it writes nothing |
| Service.GeminiService.constructor | app/gemini/service.py:16-29 | The embedding and chat model ids are fixed. The cache, logger, TTL and collaborators are the ones given |
| Service.GeminiService.EmbeddingCacheKey | app/gemini/service.py:193-199 | The key is the embeddings module's `emb:{model}:{sha256}` format under this service's model |
| Service.GeminiService.LogAndTime | app/gemini/service.py:34-79 | Returns or re-raises exactly what `_retry` produced. The records describe that outcome |
| Service.GeminiService.Embed | app/gemini/service.py:88-138 | Blank text gives `[]` with no cache access and no model call. A hit returns the decoded cached vector without a model call. Otherwise the retried call runs: cache errors on get and set, and a cached text that does not decode, are swallowed and fall through to it. A returned vector is written once, as `json.dumps`, with `ex=emb_ttl` |
| Service.GeminiService.CachedEmbedding | app/gemini/service.py:95-109 | Without a cache there is no hit. With one, exactly one `get` is issued and nothing is written. A stored value is a hit only when the cache is reachable, and an unreachable cache counts as a miss |
| Service.GeminiService.CachedVector | app/gemini/service.py:95-109 | The guarded read hits iff the cache is reachable, holds a non-empty text under the key, and that text decodes; the hit is the decoded vector |
| Service.GeminiService.EmbedUncached | app/gemini/service.py:111-138 | The retried, logged `embed_content` call decides the result, the invocation count and the records. A returned vector is written once under the key with `ex=emb_ttl` and changes the entries only when the cache is reachable. A failed call writes nothing |
| Service.GeminiService.SafeJsonParse | app/gemini/service.py:240-292 | The same staged chain as `json_utils.safe_json_parse`: the first stage that parses, else `{"raw_text": text}` |
| Service.EmbedTwice | app/gemini/service.py:95-102 | A second `embed` of the same text after a successful first one is a hit: same vector, no model call |
| Service.TransientMessages | app/gemini/service.py:212-218 | "429 rate limit" and "timeout" are transient |
| Service.RetryThroughEmbed | app/gemini/service.py:201-238 | On a miss where `embed_content` fails with "429 rate limit", then "timeout", then returns `[1, 2, 3]`, `embed` returns `[1, 2, 3]` after exactly three calls |
| Embeddings.CacheKeyInjective | app/gemini/embeddings.py:36-38 | Equal keys iff equal (model, digest) pairs, because the digest has a fixed length |
| Embeddings.Embed | app/gemini/embeddings.py:7-33 | The loop-free method computes the specification `EmbedResult`, its invocation count, cache state and operations. With no Redis client the cache is never touched |
| Embeddings.EmbedCases | app/gemini/embeddings.py:7-33 | Blank text gives `[]` with no cache access. An unreachable cache raises. A non-empty cached text is decoded without a model call, and one that does not decode raises. A miss makes one retried call with content `"Embed this text:\n" + text`; a returned vector is written as `json.dumps` without a TTL, and a failed call writes nothing |
| Embeddings.CachedAfterMiss | app/gemini/embeddings.py:13-31 | With a codec that round-trips, the next `embed` of a text after a miss that returned a vector is a hit: same vector, no model call |
| Embeddings.Lookup | app/gemini/embeddings.py:13-16 | One `get` of the key. Nothing is found iff the call is a miss; otherwise the result is the decoded vector, or what the read or the decode raises |
| Embeddings.EmbedMiss | app/gemini/embeddings.py:18-33 | The miss path: the retried call decides the result and invocation count, and the only write is `set(key, json.dumps(vector))` without a TTL after a success |
| Embeddings.EmbedWithCache | app/gemini/embeddings.py:12-33 | With a Redis client and a non-blank text: the result, invocations, cache state and operations are those of `EmbedResult`, `EmbedInvocations`, `EmbedView` and `EmbedOps` |
| JsonRepair.RemoveFences | app/gemini/json_utils.py:22 | Fence removal never lengthens the text and leaves no triple backtick |
| JsonRepair.RemoveFencesPlainPrefix | app/gemini/json_utils.py:22 | A prefix without backticks passes through fence removal unchanged |
| JsonRepair.NoBacktickUnchanged | app/gemini/json_utils.py:22 | Text without backticks is not changed by fence removal |
| JsonRepair.BraceMatch | app/gemini/json_utils.py:31 | The greedy DOTALL span runs from the first `{` to the last `}`. It exists iff some `}` follows a `{` |
| JsonRepair.BraceSpan | app/gemini/json_utils.py:31-34 | The stage-3 candidate starts with `{` and ends with `}` |
| JsonRepair.Repair | app/gemini/json_utils.py:40-44 | The repaired text has no newline |
| JsonRepair.FirstParseCons | app/gemini/json_utils.py:14-51 | The first candidate's parse wins; otherwise the rest are tried |
| JsonRepair.FirstParse3 | app/gemini/json_utils.py:14-37 | With three candidates, the parse of the earliest one that parses is taken |
| JsonRepair.FirstParse4 | app/gemini/json_utils.py:14-51 | With four candidates, the first one's parse wins, otherwise the other three are tried in order |
| JsonRepair.SafeJsonParse | app/gemini/json_utils.py:6-58 | Input that is already valid JSON is returned as its parse, whatever its type |
| JsonRepair.FirstParseIsEarliest | app/gemini/json_utils.py:14-51 | The chain yields the parse of the earliest candidate that parses, and nothing iff none parses |
| JsonRepair.StagesInOrder | app/gemini/json_utils.py:14-58 | `safe_json_parse` never raises. It returns the first successful stage in the order original, fence-stripped, brace span, repaired, and otherwise `{"raw_text": text}` |
| JsonRepair.AllStagesFail | app/gemini/json_utils.py:53-58 | When no candidate parses, the fallback carries the original, unmodified text |
| JsonRepair.FencedBodyRecovered | app/gemini/json_utils.py:22 | Stage 2 recovers the body of a ```` ```json ```` fence exactly |
| JsonRepair.FencedObjectParsed | app/gemini/json_utils.py:21-25 | The markdown case: a fenced `{"a": 1}` is parsed through stage 2 |
| JsonRepair.FencedBodyParsed | app/gemini/json_utils.py:21-25 | A fenced body that parses is the result when the fenced text does not |
| JsonRepair.CleanedStageWins | app/gemini/json_utils.py:21-25 | When the original fails and the stage-2 text parses, that parse is returned |
| JsonRepair.RepairStageWins | app/gemini/json_utils.py:39-47 | When stages 1 to 3 fail and the repaired text parses, that parse is returned |
| JsonRepair.PlainTextCleaned | app/gemini/json_utils.py:22 | Text with no backtick and no surrounding whitespace is its own stage-2 text |
| JsonRepair.WholeTextSpan | app/gemini/json_utils.py:31-34 | The brace span of a text that opens with `{` and closes with its only `}` is the whole text |
| JsonRepair.RepairDropsComma | app/gemini/json_utils.py:40-44 | Repair drops the comma before a final `}` |
| JsonRepair.TrailingCommaRepaired | app/gemini/json_utils.py:39-47 | The repair case: `{"a": 1,}` fails stages 1 to 3 and is parsed after repair |
| JsonRepair.TrailingCommaParsed | app/gemini/json_utils.py:39-47 | An object whose only defect is a comma before its final brace is parsed after repair |
| JsonRepair.TrailingCommaStages | app/gemini/json_utils.py:22-44 | The stage texts of such an object: itself, itself, and itself without the comma |
| JsonRepair.TrailingCommaCleaned | app/gemini/json_utils.py:22 | Such an object is its own stage-2 text |
| JsonRepair.TrailingCommaSpan | app/gemini/json_utils.py:31 | Such an object is its own brace span |
| JsonRepair.RepairUnchanged | app/gemini/json_utils.py:40-44 | Text without newlines or commas is its own repaired text |
| JsonRepair.NoStageParses | app/gemini/json_utils.py:14-58 | When no stage parses, the result is `{"raw_text": text}` |
| JsonRepair.PlainTextFallsBack | app/gemini/json_utils.py:14-58 | Plain text that fails the first parse fails every stage and falls back |
| JsonRepair.NotJsonFallsBack | app/gemini/json_utils.py:53-58 | The fallback case: "not json" becomes `{"raw_text": "not json"}`, which has the `raw_text` key |
| JsonRepair.CommaBeforeNewlineNotRepaired | app/gemini/json_utils.py:40-44 | Newlines become spaces before the comma repair, so `",\n}"` becomes `", }"` and keeps its comma |
| JsonHandler.FirstBalanced | app/utils/json_handler.py:23-32 | The least end at which the brace count returns to zero, or none when it never does |
| JsonHandler.BalanceSnoc | app/utils/json_handler.py:25-29 | One more character moves the count by that character's delta |
| JsonHandler.ExtractJson | app/utils/json_handler.py:11-34 | The index loop computes the specification `Extract`: the first `{` up to the first point where the depth returns to 0, or the two `ValueError`s |
| JsonHandler.PositiveUntilBalanced | app/utils/json_handler.py:23-32 | Before it first returns to zero, the count stays positive |
| JsonHandler.NoStartIffNoBrace | app/utils/json_handler.py:16-18 | "No JSON object start" is raised exactly when the text has no `{` |
| JsonHandler.ExtractedIsBalancedObject | app/utils/json_handler.py:20-32 | The result is the substring at the first `{`. It ends with `}`, has equally many `{` and `}`, and every proper non-empty prefix has more `{` than `}` |
| JsonHandler.BalancedSpanShape | app/utils/json_handler.py:23-32 | A first balanced span from a `{` ends with `}` and is positive on every proper prefix |
| JsonHandler.NeverBalancedIffPositive | app/utils/json_handler.py:34 | "Never balanced" is raised exactly when a `{` exists and the depth stays positive to the end |
| JsonHandler.BalanceConcat | app/utils/json_handler.py:23-29 | The count of a concatenation is the sum of the counts |
| JsonHandler.BalanceWithoutBraces | app/utils/json_handler.py:25-29 | Text without braces leaves the count at zero |
| JsonHandler.OpenThenPlain | app/utils/json_handler.py:25-31 | `{` plus brace-free text has count 1, and one `}` more brings it to 0 |
| JsonHandler.FirstCloseEnds | app/utils/json_handler.py:28-32 | After `{` and brace-free text, the first `}` ends the object, whatever follows |
| JsonHandler.QuotedBraceCloses | app/utils/json_handler.py:24-32 | Braces are counted inside string literals too: a quoted `}` closes the object |
| JsonHandler.FirstBalancedAt | app/utils/json_handler.py:23-32 | The scan finds exactly the first zero of the count |
| JsonHandler.DropTrailingCommasKeepsRest | app/utils/json_handler.py:45 | The trailing-comma step deletes only commas and whitespace: every other character survives, in order |
| JsonHandler.CommaBeforeCloserDropped | app/utils/json_handler.py:45 | A comma, optional whitespace and `}` or `]` become just the bracket |
| JsonHandler.CleanJson | app/utils/json_handler.py:37-53 | The cleaned text contains no U+200B |
| JsonHandler.EllipsesGone | app/utils/json_handler.py:48 | After `replace("...", "")` the text holds no three consecutive dots |
| JsonHandler.DropEllipsesKeepsRest | app/utils/json_handler.py:48 | The ellipsis step deletes only dots: every other character survives, in order |
| JsonHandler.DropEllipsesPlainPrefix | app/utils/json_handler.py:48 | A prefix without dots passes through the ellipsis step unchanged |
| JsonHandler.CommaBeforeEllipsisSurvives | app/utils/json_handler.py:44-51 | The comma step runs before the ellipsis step, so `,` + whitespace + `...` + a closing bracket cleans to `,` + whitespace + the bracket: the comma whose bracket is reached only through a `...` is kept |
| JsonHandler.ParseOrRepairJson | app/utils/json_handler.py:56-78 | No `{` raises "No JSON object start". Extraction errors propagate. Otherwise the result is the strict parse of the cleaned extraction, and a parse failure is raised, with no raw-text fallback |
| VideoExtraction.ExtractRawFrames | app/gemini/video_extraction.py:18-37 | A capture that does not open gives `[]`. Otherwise the loop keeps exactly the interval-sampled frames, with `last` starting at `-interval_ms` |
| VideoExtraction.SampledIsSubsequence | app/gemini/video_extraction.py:29-34 | Sampling keeps an in-order subsequence of the frames read |
| VideoExtraction.SampledSpacing | app/gemini/video_extraction.py:31-33 | Consecutive kept positions differ by at least `interval_ms` |
| VideoExtraction.FirstReadKept | app/gemini/video_extraction.py:26-33 | A first read at a position of 0 or more is always kept |
| VideoExtraction.Hamming | app/gemini/video_extraction.py:48 | The hash distance is at most the hash width, and zero between equal hashes |
| VideoExtraction.DedupeFrames | app/gemini/video_extraction.py:40-52 | The loop keeps exactly the frames of the specification `Deduped`, starting from no last hash |
| VideoExtraction.DedupedIsSubsequence | app/gemini/video_extraction.py:44-50 | An in-order subsequence whose first frame is the input's first frame |
| VideoExtraction.DedupedSpacing | app/gemini/video_extraction.py:48-50 | Consecutive kept frames differ by more than `threshold` bits |
| VideoExtraction.DedupedSameHash | app/gemini/video_extraction.py:48 | Frames hashing like the last kept one are all dropped |
| VideoExtraction.IdenticalRunCollapses | app/gemini/video_extraction.py:44-50 | A run of N identically hashed frames collapses to its first frame |
| VideoExtraction.ComparedWithLastKept | app/gemini/video_extraction.py:48-50 | A frame close to the last kept frame is dropped even when the frame before it was dropped |
| VideoExtraction.PrepareFrames | app/gemini/video_extraction.py:55-60 | One entry per frame, in order, each `image/jpeg` with that frame's encoding |
| VideoExtraction.OcrFallback | app/gemini/video_extraction.py:63-81 | The résumé list holds the texts mentioning "experience" or "education" (lower-cased), the JD list the others, both `"\n"`-joined in frame order |
| VideoExtraction.OcrSplitsFrames | app/gemini/video_extraction.py:73-76 | Every frame text lands in exactly one of the two lists, so their sizes add up to the frame count |
| VideoExtraction.ValidateExtraction | app/gemini/video_extraction.py:84-91 | Returns its input unchanged iff it is a dict with both fields and no truthy `blocked`, and the returned value is truthy. Falsy input, a missing field and a safety block each raise `GeminiSafetyError` with its own message |
| VideoAnalysis.Contents | app/gemini/video_analysis.py:28 | The vision contents are the prompt first, then the prepared frames in order |
| VideoAnalysis.OcrFallbackUnreachable | app/gemini/video_analysis.py:39 | As written, `validate_extraction(...) or ocr_fallback(...)` is just the validation: the OCR branch is never taken |
| VideoAnalysis.Extracted | app/gemini/video_analysis.py:39 | Corrected: a validated extraction is kept, and an invalid one is replaced by the OCR split |
| VideoAnalysis.BlockedExtractionFallsBack | app/gemini/video_analysis.py:39 | A blocked extraction raises as written, and falls back to OCR when corrected |
| VideoAnalysis.InvalidReplyRaisesAsWritten | app/gemini/video_analysis.py:39 | On a parsed reply that does not validate, the code as written raises the validation's error while the corrected extraction is the OCR split of the same frames. On a reply that validates, both are that reply |
| VideoAnalysis.ExtractionHasFields | app/gemini/video_analysis.py:39-45 | Any extraction that gets through, as written or corrected, holds both `resume_text` and `jd_text` |
| VideoAnalysis.AnalyzeFields | app/gemini/video_analysis.py:19-46 | Text analysis receives exactly the dict's `resume_text` and `jd_text`. A non-dict raises `TypeError` |
| VideoAnalysis.VisionOnMiss | app/gemini/video_analysis.py:23-39 | Extract, then de-duplicate, then prepare. One retried vision call over `[prompt] + prepared`. The reply is `safe_json_parse` of its text. A vision error propagates, a missing response raises `AttributeError`, and a `None` text raises `TypeError` from the fence-stripping `re.sub` |
| VideoAnalysis.ExtractOnMissAsWritten | app/gemini/video_analysis.py:23-39 | As written: the result is the validated vision reply, and a reply that does not validate raises `GeminiSafetyError` |
| VideoAnalysis.ExtractOnMiss | app/gemini/video_analysis.py:23-39 | Corrected: the result is the vision reply when it validates and the OCR split of the prepared frames when it does not; errors of the vision call and of its text propagate |
| VideoAnalysis.CachedAnalysis | app/gemini/video_analysis.py:15-21 | One `get` of the key. An unreachable cache raises. A non-empty cached text is parsed and its pair analysed. Otherwise nothing is decided |
| VideoAnalysis.StoreAndAnalyze | app/gemini/video_analysis.py:41-46 | After a miss: a failed extraction propagates with nothing written. Otherwise the extraction is written under the key without a TTL, and then exactly its `resume_text` and `jd_text` are analysed |
| VideoAnalysis.AnalyzeVideoAndJdAsWritten | app/gemini/video_analysis.py:12-46 | As written: the cache paths are those of the corrected call. On a miss, a vision reply that does not validate (a safety block, a missing field, an empty object) raises `GeminiSafetyError` with no cache write and no analysis |
| VideoAnalysis.AnalyzeVideoAndJd | app/gemini/video_analysis.py:12-46 | Corrected: one key `video_extract:` + hash for read and write. A hit makes no vision call. A miss writes the extraction, vision or OCR, without a TTL before the analysis. Cache errors propagate |
| Ingest.GroupsFlatten | app/rag/ingest.py:20-21 | The chunks' words, in order, concatenate to the input words |
| Ingest.GroupsSizes | app/rag/ingest.py:20-21 | ceil(n / size) groups, each of 1 to `size` words, all but the last exactly `size` |
| Ingest.GroupsMembers | app/rag/ingest.py:20-21 | Every grouped word is one of the input words |
| Ingest.ChunkWords | app/rag/ingest.py:17-21 | Each chunk's `split()` is its group of words |
| Ingest.ChunkTextSpec | app/rag/ingest.py:13-24 | No words give no chunks. Otherwise the chunks' words concatenate to `text.split()`. There are ceil(n / chunk_size) chunks of at most `chunk_size` words, and all but the last have exactly `chunk_size`. A zero step raises |
| Ingest.DocsAreEmbeddedChunks | app/rag/ingest.py:40-57 | The stored texts are exactly the chunks with a non-empty embedding, in chunk order |
| Ingest.FirstDoc | app/rag/ingest.py:40-57 | The first stored document is that of the first chunk with an embedding |
| Ingest.DocsPrefix | app/rag/ingest.py:40-58 | Documents stored by an earlier point of the loop are a prefix of later ones |
| Ingest.IngestText | app/rag/ingest.py:26-60 | Corrected: upserts one document per chunk with a non-empty embedding, skips the others, and returns how many it stored |
| Ingest.StoreChunks | app/rag/ingest.py:40-58 | The chunk loop, as the counting loop it is meant to be. Each chunk with an embedding is upserted, in order, and counted. When the store is down, the first upsert fails and nothing is stored |
| Ingest.IngestTextAsWritten | app/rag/ingest.py:26-60 | As written: returns 1 right after the first upsert, or `None` when no chunk has an embedding |
| Ingest.IngestTextUndercounts | app/rag/ingest.py:58-60 | Two embedded chunks: the corrected count is 2, the code as written returns 1 |
| Ingest.EffectiveMetadata | app/rag/ingest.py:78-80 | The keys are `source` plus the caller's keys. The caller's values override. `source` is the path unless the caller overrides it |
| Ingest.IngestFile | app/rag/ingest.py:62-84 | A path that does not exist raises `FileNotFoundError`. An existing path that cannot be opened or read raises that error. Otherwise the content is ingested under the merged metadata |
| Ingest.UnreadablePathRaises | app/rag/ingest.py:71-77 | An existing path whose open or read fails (a directory, a file that is not UTF-8) raises the read's own error, not `FileNotFoundError`, as written and corrected, and nothing is stored |
| Ingest.IngestDirectory | app/rag/ingest.py:86-120 | Corrected: a non-directory raises. Every regular file whose name ends with `glob_ext` is ingested with `{"source_dir": dirpath}`. A file's failure is swallowed. The total counts all stored documents |
| Ingest.FirstQualifying | app/rag/ingest.py:101-105 | The first entry that is a regular file matching the extension filter |
| Ingest.IngestFileAsWritten | app/rag/ingest.py:62-84 | `ingest_file` over `ingest_text` as written, with the same missing-path and read-error cases |
| Ingest.IngestDirectoryAsWritten | app/rag/ingest.py:86-120 | As written: only the first qualifying entry is ingested, and a directory without one returns `None` |
| Ingest.IngestDirectoryStopsEarly | app/rag/ingest.py:101-120 | Two qualifying files: the corrected loop stores both files' documents, while the code as written reports 1 |
| MockInterview.FromJsonFields | app/ui/views/mock_interview_helpers.py:78-90 | The JSON path is taken iff the value is a dict whose score converts with `int`. The missing score is 0. Present truthy fields are kept, and missing or falsy ones become `[]` or `""` |
| MockInterview.ClassifyCases | app/ui/views/mock_interview_helpers.py:100-128 | Blank iff the line strips to nothing, and a header iff it starts (lower-cased) with one of the five headings. A score line's value is the parse between the first `:` and the next `/`. Content is the stripped line |
| MockInterview.FoldAppend | app/ui/views/mock_interview_helpers.py:100-136 | The parser state over two runs of lines is the state over the first, continued over the second |
| MockInterview.HeadersRecordNothing | app/ui/views/mock_interview_helpers.py:107-126 | Header lines are never recorded as content. A score line resets the section and keeps the old score when its number does not parse |
| MockInterview.ContentToCurrentSection | app/ui/views/mock_interview_helpers.py:128-136 | A content line goes only to the current section's list, bullet-stripped for strengths and weaknesses. With no section it is dropped |
| MockInterview.NoHeaderRecordsNothing | app/ui/views/mock_interview_helpers.py:98-136 | Lines before any header record nothing |
| MockInterview.ScoreKept | app/ui/views/mock_interview_helpers.py:107-114 | Lines that set no score leave it unchanged |
| MockInterview.LastScoreWins | app/ui/views/mock_interview_helpers.py:107-114 | The last score line that parses decides the score |
| MockInterview.DefaultScore | app/ui/views/mock_interview_helpers.py:142 | With no parsable score line, the score is 0 |
| MockInterview.FoldStep | app/ui/views/mock_interview_helpers.py:100-136 | The fold over the remaining lines is one step and then the fold over the rest |
| MockInterview.ParseText | app/ui/views/mock_interview_helpers.py:95-147 | The line loop computes the specification `ParsedText`. Suggestion and ideal-answer lines are `"\n"`-joined and stripped |
| MockInterview.ParseEvaluation | app/ui/views/mock_interview_helpers.py:71-147 | The JSON path when the text parses to a dict whose score converts, the legacy parser otherwise |
| MockInterview.ForQuestionExact | app/ui/views/mock_interview_helpers.py:205 | Exactly the entries whose question equals the argument, in history order |
| MockInterview.AddThenForQuestion | app/ui/views/mock_interview_helpers.py:153-205 | Adding an entry extends that question's history by it and no other question's |
| MockInterview.Session.constructor | app/ui/views/mock_interview_helpers.py:154 | The session starts with the given history, absent or present |
| MockInterview.Session.AddToHistory | app/ui/views/mock_interview_helpers.py:153-167 | One entry appended at the end, with defaults 0, `[]` and `""`. Earlier entries are unchanged |
| MockInterview.Session.GetQuestionHistory | app/ui/views/mock_interview_helpers.py:201-205 | Filters the session history, loading it from the database first when it is empty or absent |
| SkillMatrix.MaxLen | app/ui/views/analysis/skill_matrix_section.py:5 | Bounds every column's length and is attained by one of them |
| SkillMatrix.NormalizeColumns | app/ui/views/analysis/skill_matrix_section.py:4-6 | An empty dict raises, because `max()` of nothing raises. Any other dict gives a result |
| SkillMatrix.NormalizeColumnsShape | app/ui/views/analysis/skill_matrix_section.py:5-6 | The same keys in the same order. Each column is its list padded only with `""`. All have the maximum input length, and the longest column is unchanged |
| SkillMatrix.NormalizeColumnsIdempotent | app/ui/views/analysis/skill_matrix_section.py:5-6 | Normalizing a normalized dict returns it unchanged |
| NextSteps.Annotation | app/ui/views/analysis/next_steps_section.py:15 | Each annotation is non-empty |
| NextSteps.Enriched | app/ui/views/analysis/next_steps_section.py:12-15 | The enriched step begins with the original step |
| NextSteps.SuffixConcat | app/ui/views/analysis/next_steps_section.py:13-15 | The keywords contribute independently, in the table's order |
| NextSteps.OneKeyword | app/ui/views/analysis/next_steps_section.py:14-15 | One keyword appends its annotation once iff the step mentions it (case-insensitive) |
| NextSteps.SuffixEmptyIff | app/ui/views/analysis/next_steps_section.py:13-15 | Nothing is appended iff no keyword is mentioned |
| NextSteps.UnchangedIff | app/ui/views/analysis/next_steps_section.py:14 | A step is returned unchanged iff it mentions no keyword |
| NextSteps.EnrichNextSteps | app/ui/views/analysis/next_steps_section.py:9-17 | Same length and order. Each output is its step enriched, with matches tested on the original step, never on appended text |
| TimeTracking.ElapsedMs | app/utils/time_tracker.py:11 | `int((now - start) * 1000)` truncates toward zero: it is within one millisecond of the true elapsed time, and never negative for a clock that did not go back |
| TimeTracking.WholeMilliseconds | app/utils/time_tracker.py:11 | In exact real arithmetic, with clock readings that are whole milliseconds, a mark records `now - start` |
| TimeTracking.TimeTracker.constructor | app/utils/time_tracker.py:4-7 | A new tracker has no events and records its start |
| TimeTracking.TimeTracker.Mark | app/utils/time_tracker.py:9-12 | One `(label, elapsed_ms)` appended at the end. Earlier events and `start` are unchanged |
| TimeTracking.TimeTracker.Report | app/utils/time_tracker.py:14-15 | The events in insertion order |
| Workflow.Merge | app/agent/workflow.py:37 | The keys an update carries replace the state's values, and every other key is kept |
| Workflow.Routing | app/agent/workflow.py:49-148 | The video path is taken iff `video_file_path` is truthy. Text input and video processing both flow into `check_cache`. The run exits after the cache check iff `final_result` is truthy. Generation runs iff the search result list is empty. Every edge moves toward `END` |
| Workflow.FalsyCachedValueContinues | app/agent/workflow.py:124-134 | A cached value that parses to `{}` does not end the run |
| Workflow.StepsAdd | app/agent/workflow.py:49-91 | Running the successor the graph chooses extends a valid trace |
| Workflow.StepsRecord | app/agent/workflow.py:37 | Merging a node's update records the state after it |
| Workflow.Descends | app/agent/workflow.py:49-91 | Every edge decreases the distance to `END`, so every run is finite |
| Workflow.LastStep | app/agent/workflow.py:70-91 | A node whose successor is `END` is the last node of a completed run |
| Workflow.NotLastNotEnd | app/agent/workflow.py:49-91 | Before the last node of a run, no successor is `END` |
| Workflow.CompletedRunPath | app/agent/workflow.py:49-91 | A completed run is one of the graph's paths. Video processing runs iff there is a video path. The run exits right after the cache check iff that check gives a truthy result. Generation and ingestion run iff the search found nothing |
| Workflow.ContextAppend | app/agent/workflow.py:173-190 | The context of the results with the knowledge appended is the old context, a newline and the knowledge; with no earlier results it is the knowledge alone |
| Workflow.CareerPilotAgent.constructor | app/agent/workflow.py:31-34 | The agent holds the given collaborators and an empty state |
| Workflow.CareerPilotAgent.AnalysisKey | app/agent/workflow.py:122 | The key is `"analysis:"` + fingerprint(resume_text + jd_text) |
| Workflow.CareerPilotAgent.ProcessVideo | app/agent/workflow.py:110-118 | Raises `ValueError` unless both extracted texts are non-empty. Otherwise it sets exactly `resume_text` and `jd_text` |
| Workflow.CareerPilotAgent.CheckCache | app/agent/workflow.py:120-128 | One read of the key. A hit sets only `final_result` to the parsed value. A miss sets only `analysis_cache_key` |
| Workflow.CareerPilotAgent.EmbedText | app/agent/workflow.py:138 | The result is the embeddings module's `embed` against the cache as it was, and the cache's new state and operations are that call's |
| Workflow.CareerPilotAgent.SearchVectors | app/agent/workflow.py:136-140 | A missing `jd_text` raises `KeyError` with no search. The query is `embed(jd_text)` against the cache as it was before the node, and the cache moves to that call's new state. One search with `top_k=3`, no upsert. Sets only `vector_search_results`, to the hits |
| Workflow.CareerPilotAgent.GenerateKnowledge | app/agent/workflow.py:150-161 | One retried model call on the formatted prompt. Sets only `generated_knowledge` |
| Workflow.CareerPilotAgent.IngestKnowledge | app/agent/workflow.py:163-175 | A missing knowledge raises. The embedding is `embed(generated_knowledge)` against the cache as it was, and the cache moves to that call's new state. Upserts exactly one `{text, embedding, source: "generated_from_jd"}` and no search. The result list is the old one with `{"text": knowledge}` appended |
| Workflow.CareerPilotAgent.PerformFinalAnalysis | app/agent/workflow.py:177-223 | The missing-input and no-context error results come before any model call. Empty model text gives its own error result. None of the error results writes the cache. Otherwise the parsed result is written with `ex=3600` iff the cache key is present, and the same value is returned |
| Workflow.CareerPilotAgent.StoreAnalysis | app/agent/workflow.py:219 | One `set` of the key with `ex=3600`. An unreachable cache raises; a reachable one holds the value afterwards |
| Workflow.CareerPilotAgent.FinalCases | app/agent/workflow.py:177-223 | The two guards and an empty reply give their error results and change nothing. A raising model call propagates. A reply with text is parsed, and written as `json.dumps` under the analysis key when one is set |
| Workflow.CareerPilotAgent.Step | app/agent/workflow.py:97-223 | Runs one node: its update is that of the node specification `NodeResult` on the state and world before it, and the world moves to `NextWorld`. `route_input` updates nothing, and only the search and ingestion nodes touch the vector store |
| Workflow.CareerPilotAgent.Advance | app/agent/workflow.py:36-93 | One step of `ainvoke`: the node runs on the current state, the trace stays on the graph's path, and the rest of the run is the graph's run from the successor on the merged state; a node that raises ends the run with its error |
| Workflow.CareerPilotAgent.Run | app/agent/workflow.py:36-93 | `ainvoke` runs nodes from `route_input`, merging updates and following the routers. The result and the final world are those of the graph's run `Simulate` from `route_input` on the input. A completed run's trace is a graph path, and a run with no search leaves the vector store untouched |
| Workflow.CareerPilotAgent.SimulateStep | app/agent/workflow.py:36-93 | A node that raises ends the run with its error; otherwise the run goes on from the router's successor, on the merged state, in the node's new world |
| Workflow.CareerPilotAgent.FinalNode | app/agent/workflow.py:177-223 | The final analysis ends the run: its update merged into the state, or its error, with its cache write |
| Workflow.CareerPilotAgent.CacheHitRun | app/agent/workflow.py:120-134 | A text request whose analysis is cached, with a truthy parse, ends after the cache check with that value as `final_result` and nothing written |
| Workflow.CareerPilotAgent.CacheMissRun | app/agent/workflow.py:120-134 | On a miss, the run goes on to the search with the analysis key set and the world unchanged |
| Workflow.CareerPilotAgent.SearchStep | app/agent/workflow.py:136-148 | After the search the run continues on the hits, to generation iff there are none, with the JD's embedding call applied to the cache |
| Workflow.CareerPilotAgent.GenerateThenIngest | app/agent/workflow.py:150-175 | Generation then ingestion reach the final analysis with the knowledge recorded and appended as the last hit, and the knowledge's embedding call applied to the cache |
| Workflow.CareerPilotAgent.AugmentedRun | app/agent/workflow.py:120-223 | A miss whose search finds hits ends with `final_result` the parse of the model's reply, and the world is the JD's embedding call followed by that result written under the analysis key |
| Workflow.CareerPilotAgent.GeneratedRun | app/agent/workflow.py:136-190 | A miss whose search finds nothing reaches the final analysis with the generated knowledge as its only hit, so the context is exactly that knowledge |
| Workflow.CareerPilotAgent.RepeatedRunHits | app/agent/workflow.py:120-223 | With a codec that round-trips, repeating an augmented request hits the cache when the first result is truthy: same result, world unchanged. A falsy result is not a hit, and the repeat goes on to the search without an analysis key |

## Left out

- I/O and foreign computation are parameters: the file system (the existing paths, each
  with the text or the error its open and read give, and the directory listings), OpenCV, EasyOCR, perceptual
  hashing, SHA-256, Python's process-randomised `hash`, the Gemini SDK, Redis, MongoDB,
  prompt templates, `json.loads`/`json.dumps`, UUIDs and clocks. Asynchrony (`await`,
  `run_in_executor`) is modelled as sequential calls.
- Log messages are left out, except the structured records of `_log_and_time`, which are
  modelled. The logger's level, and the `logger = logger or logger` self-assignment at
  app/gemini/service.py:27, are reduced to a flag saying whether a logger exists.
- `extract_text_from_video`, imported at app/agent/workflow.py:6, is not part of this model.
  It is the parameter `extractVideo`.
- `upsert` is imported at app/agent/workflow.py:8 and app/rag/__init__.py:5, but
  app/rag/mongo_vector.py defines only `upsert_document`. The model's `Upsert` is the
  intended single-document upsert.
- In app/rag/ingest.py:45, `gemini_client.embed(chunk)` calls a method that `GeminiClient`
  does not define, and does not await it. The model takes the chunk's embedding as the
  parameter `embed`.
- The module-level `GeminiClient()` of app/rag/ingest.py:11 and `ingest_pending_files` are
  left out: they are construction and an endless worker loop.
- Ingest.IngestText: upsert ids come from `newId`, one per chunk position, standing in for
  `uuid4`. The model does not state that the ids are distinct.
- VideoAnalysis.AnalyzeVideoAndJd: the write at app/gemini/video_analysis.py:42 hands the
  dict itself to `redis.set`, which the redis-py client rejects. The model writes its
  encoding `encodeValue(extracted)` and leaves that failure out.
- VideoAnalysis.AnalyzeVideoAndJd: a `cached` value is looked up by truthiness. Stored
  values are JSON text, so the empty string is the only falsy one.
- Workflow.CareerPilotAgent.GenerateKnowledge: a response without text is raised as
  `AttributeError` at the generation node. In the source it surfaces at the next node's
  `embed`, with nothing observable in between.
- Workflow.CareerPilotAgent.Run: LangGraph's own state checks and its recursion limit are
  left out. The graph is acyclic, so every run ends within seven nodes.
- Workflow.CareerPilotAgent.IngestKnowledge: the source appends to the state's own list in
  place (line 174). The model builds the new list as a value. No other holder of that list
  exists within one run, so nothing observable differs.
- TimeTracking.TimeTracker.Report: the source returns its internal list object, so a
  caller's later change to that list is visible through the tracker. The model returns
  the value.
- Text: `lower()` is modelled on ASCII letters only. Python's full Unicode case mapping is
  left out.
- SkillMatrix.NormalizeColumns: values are lists of strings (the skill-matrix fields).
  Other element types, which Python would also pad with `""`, are left out.
- MockInterview: the network calls `call_evaluate_api`, `save_evaluation_to_db` and
  `load_history_from_db` are out. The last one's answer is the parameter `db`. The
  timestamp is the parameter `now`.
- Retry: backoff durations are exact real seconds, and `asyncio.sleep` is recorded rather
  than performed.
- Redis expiry is not simulated. The `ex` argument of each write is recorded instead.
- Frame positions are whole milliseconds.
- `search` ranking is the index's business: the store answers searches with a given
  function.
- Workflow.CareerPilotAgent.SearchVectors: app/agent/workflow.py:139 awaits `search(...)`,
  but `search` (app/rag/mongo_vector.py:26) is synchronous and returns a list, and awaiting
  a list raises `TypeError`. As written, every run that reaches the search node aborts
  there. The model takes the evident intent: the search's hits are the node's result.
- VideoAnalysis.AnalyzeVideoAndJd and VideoAnalysis.AnalyzeVideoAndJdAsWritten: lines 19
  and 44 of app/gemini/video_analysis.py call `client.text_analysis.analyze_resume_and_jd`,
  but `GeminiClient` (app/gemini/client.py:14-27) sets no `text_analysis` attribute, so as
  written both paths raise `AttributeError`. The model takes the text analysis as the
  parameter `analyze`.
- TimeTracking.WholeMilliseconds: clock readings and their difference are exact reals.
  `time.time()` returns binary floats, and the float product by 1000 can round below a
  whole number, so `int(...)` can record one millisecond less than the lemma states.
- TimeTracking.ElapsedMs: the subtraction and the product by 1000 are exact real
  arithmetic, not IEEE 754 double arithmetic, so float rounding is not modelled.
- Text.ParseInt: Python's `int()` also accepts underscores between digits and non-ASCII
  decimal digits. The model accepts ASCII digits only, so such strings do not parse in the
  model.
- Everything else in the repository is out of scope of the core: HTTP, authentication,
  database modules, Streamlit rendering, the SDK wrapper and prompt loader, the text
  analysis glue, the CLI and the workers.

Where the code departs from what its own names, docstrings or neighbouring code lead one
to expect, the model says which side it takes:

- app/gemini/video_analysis.py:39 pairs `validate_extraction` with `ocr_fallback(prepared)`
  through `or`, but validation either raises or returns a truthy dict, so the fallback is
  unreachable (third Findings row). The model has both the code as written
  (`VideoAnalysis.AnalyzeVideoAndJdAsWritten`) and the corrected orchestration, which falls
  back when validation fails (`VideoAnalysis.AnalyzeVideoAndJd`). A raising vision call
  propagates in both.
- `GeminiService.embed` (app/gemini/service.py:95-109 and 125-136) wraps its cache reads,
  decodes and writes in `try`/`except`, so cache failures fall through to the model call.
  app/gemini/embeddings.py:13-16 and 30-31, and app/gemini/video_analysis.py:15-16 and
  41-42, have no such guard, and `Embeddings.Embed` and both video orchestrations let the
  failures propagate as the code does.
- A video that yields no frames is not rejected: the code makes the vision call with the
  prompt alone, and so does the model.
- The analysis key at app/agent/workflow.py:122 uses Python's `hash`, which is randomised
  per process for strings, so a cached analysis is found only within one process. The
  model takes `hash` as the parameter `fingerprint`, fixed within one run.
- Missing inputs are error results in `perform_final_analysis`
  (app/agent/workflow.py:181-187) but a raised `ValueError` in `process_video`
  (app/agent/workflow.py:113-114). The model keeps both.
- The docstrings of `ingest_text` and `ingest_directory` promise counts of ingested chunks.
  Both return from inside their loops; see the first two Findings rows.

## Findings

| source | as written | input that shows it | evidently intended | confidence | as-written member | corrected member |
|---|---|---|---|---|---|---|
| app/rag/ingest.py:58-60 | `return count` is indented inside the chunk loop: the function returns 1 after the first upsert, or `None` when no chunk has an embedding | a text of two chunks, both with non-empty embeddings | store every embedded chunk and return how many were stored | high (not executed) | Ingest.IngestTextAsWritten, Ingest.IngestTextUndercounts | Ingest.IngestText |
| app/rag/ingest.py:117-120 | the summary log and `return total_chunks` are inside the entry loop: only the first qualifying entry is ingested, and a directory without one returns `None` | a directory with two qualifying `.txt` files that both have chunks | ingest every qualifying file and return the total | high (not executed) | Ingest.IngestDirectoryAsWritten, Ingest.IngestDirectoryStopsEarly | Ingest.IngestDirectory |
| app/gemini/video_analysis.py:39 | `validate_extraction(...) or ocr_fallback(prepared)`: validation raises or returns a truthy dict, so the OCR fallback is unreachable and a blocked extraction aborts the call with no cache write and no analysis | a vision reply `{"resume_text": ..., "jd_text": ..., "blocked": true}` | use the OCR split when the vision extraction does not validate | medium (not executed) | VideoAnalysis.ExtractedAsWritten, VideoAnalysis.OcrFallbackUnreachable, VideoAnalysis.ExtractOnMissAsWritten, VideoAnalysis.AnalyzeVideoAndJdAsWritten | VideoAnalysis.Extracted, VideoAnalysis.ExtractOnMiss, VideoAnalysis.AnalyzeVideoAndJd |
