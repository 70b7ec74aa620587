/**
 * The analysis graph of app/agent/workflow.py (`CareerPilotAgent`): a fixed LangGraph
 * topology over a shared state record. Each node reads the state and returns a partial
 * update that is merged into it; three routers choose between the conditional edges.
 * The collaborators are the agent's analysis cache (JSON text under `analysis:` keys),
 * the embedding cache and model of the Gemini client, the vector store, the chat model
 * (its response text per prompt and invocation), Python's `hash`, the prompt templates,
 * `json.loads`/`json.dumps`, and `extract_text_from_video`, which is not part of this model.
 */
module Workflow {
  import opened Wrappers
  import opened JsonValue
  import Text
  import Retry
  import KeyValue
  import VectorIndex
  import Embeddings
  import JsonRepair

  /** The graph's nodes; `End` is LangGraph's `END`. */
  datatype Node =
    | RouteInput
    | ProcessVideo
    | CheckCache
    | SearchVectors
    | GenerateKnowledge
    | IngestKnowledge
    | PerformFinalAnalysis
    | End

  /**
   * `AgentState`, a `TypedDict`: every key may be absent (`None`). A node's partial
   * update has the same shape and carries just the keys it sets.
   */
  datatype AgentState = AgentState(
    resumeText: Option<string>,
    jdText: Option<string>,
    videoFilePath: Option<string>,
    analysisCacheKey: Option<string>,
    finalResult: Option<Json>,
    vectorSearchResults: Option<seq<VectorIndex.Hit>>,
    generatedKnowledge: Option<string>)

  /** The empty update (`route_input` returns `None`). */
  const NoUpdate := AgentState(None, None, None, None, None, None, None)

  const TopK: nat := 3
  const AnalysisTtl: nat := 3600

  function Pick<T>(update: Option<T>, current: Option<T>): Option<T> {
    if update.Some? then update else current
  }

  /** Merging an update: the keys it carries replace the state's values, every other key is kept. */
  function Merge(s: AgentState, u: AgentState): (r: AgentState)
    ensures u == NoUpdate ==> r == s
    ensures u.resumeText.Some? ==> r.resumeText == u.resumeText
    ensures u.resumeText.None? ==> r.resumeText == s.resumeText
    ensures u.jdText.Some? ==> r.jdText == u.jdText
    ensures u.jdText.None? ==> r.jdText == s.jdText
    ensures u.videoFilePath.Some? ==> r.videoFilePath == u.videoFilePath
    ensures u.videoFilePath.None? ==> r.videoFilePath == s.videoFilePath
    ensures u.analysisCacheKey.Some? ==> r.analysisCacheKey == u.analysisCacheKey
    ensures u.analysisCacheKey.None? ==> r.analysisCacheKey == s.analysisCacheKey
    ensures u.finalResult.Some? ==> r.finalResult == u.finalResult
    ensures u.finalResult.None? ==> r.finalResult == s.finalResult
    ensures u.vectorSearchResults.Some? ==> r.vectorSearchResults == u.vectorSearchResults
    ensures u.vectorSearchResults.None? ==> r.vectorSearchResults == s.vectorSearchResults
    ensures u.generatedKnowledge.Some? ==> r.generatedKnowledge == u.generatedKnowledge
    ensures u.generatedKnowledge.None? ==> r.generatedKnowledge == s.generatedKnowledge
  {
    AgentState(
      Pick(u.resumeText, s.resumeText),
      Pick(u.jdText, s.jdText),
      Pick(u.videoFilePath, s.videoFilePath),
      Pick(u.analysisCacheKey, s.analysisCacheKey),
      Pick(u.finalResult, s.finalResult),
      Pick(u.vectorSearchResults, s.vectorSearchResults),
      Pick(u.generatedKnowledge, s.generatedKnowledge))
  }

  /** `state.get(key)` is truthy for a string key: present and non-empty. */
  predicate Present(v: Option<string>) {
    v.Some? && v.value != ""
  }

  const NotExtracted := Error(ValueError, "Could not extract resume or JD from video.")
  /** `response.text` when the retried call fell through and returned `None`. */
  const NoResponse := Error(AttributeError, "'NoneType' object has no attribute 'text'")
  /** `embed` on a knowledge text that is `None` (`text.strip()`). */
  const NoKnowledge := Error(AttributeError, "'NoneType' object has no attribute 'strip'")

  // ---------------------------------------------------------------- routing

  datatype InputRoute = Video | TextInput
  datatype CacheRoute = Continue | Exit
  datatype KnowledgeRoute = Generate | Augment

  /** `decide_input_path`. */
  function DecideInputPath(s: AgentState): InputRoute {
    if Present(s.videoFilePath) then Video else TextInput
  }

  /** `decide_after_cache`: exit iff `final_result` is present and truthy. */
  function DecideAfterCache(s: AgentState): CacheRoute {
    if s.finalResult.Some? && Truthy(s.finalResult.value) then Exit else Continue
  }

  /** `decide_to_generate_knowledge`: reads `state["vector_search_results"]`, which the search node always sets. */
  function DecideToGenerateKnowledge(s: AgentState): KnowledgeRoute
    requires s.vectorSearchResults.Some?
  {
    if s.vectorSearchResults.value == [] then Generate else Augment
  }

  /** What a router needs of the state it reads. */
  predicate Routable(node: Node, s: AgentState) {
    node == SearchVectors ==> s.vectorSearchResults.Some?
  }

  /** `_build_graph`: the successor of `node` once its update is merged into the state `s`. */
  function Next(node: Node, s: AgentState): Node
    requires Routable(node, s)
  {
    match node
    case RouteInput =>
      (match DecideInputPath(s) case Video => ProcessVideo case TextInput => CheckCache)
    case ProcessVideo => CheckCache
    case CheckCache =>
      (match DecideAfterCache(s) case Continue => SearchVectors case Exit => End)
    case SearchVectors =>
      (match DecideToGenerateKnowledge(s) case Generate => GenerateKnowledge case Augment => PerformFinalAnalysis)
    case GenerateKnowledge => IngestKnowledge
    case IngestKnowledge => PerformFinalAnalysis
    case PerformFinalAnalysis => End
    case End => End
  }

  /** Distance to `END` along the longest path; every edge decreases it. */
  function Rank(node: Node): nat {
    match node
    case RouteInput => 7
    case ProcessVideo => 6
    case CheckCache => 5
    case SearchVectors => 4
    case GenerateKnowledge => 3
    case IngestKnowledge => 2
    case PerformFinalAnalysis => 1
    case End => 0
  }

  /**
   * The video path is taken iff `video_file_path` is truthy; text input goes straight to
   * the cache check and video processing always flows into it; every edge moves towards `END`.
   */
  lemma Routing(s: AgentState)
    ensures Next(RouteInput, s) == (if Present(s.videoFilePath) then ProcessVideo else CheckCache)
    ensures Next(ProcessVideo, s) == CheckCache
    ensures Next(CheckCache, s) == End <==> s.finalResult.Some? && Truthy(s.finalResult.value)
    ensures s.vectorSearchResults.Some? ==>
      Next(SearchVectors, s) == (if s.vectorSearchResults.value == [] then GenerateKnowledge else PerformFinalAnalysis)
    ensures Next(GenerateKnowledge, s) == IngestKnowledge && Next(IngestKnowledge, s) == PerformFinalAnalysis
    ensures Next(PerformFinalAnalysis, s) == End
    ensures forall node :: node != End && Routable(node, s) ==> Rank(Next(node, s)) < Rank(node)
  {
  }

  /** A cached value that parses to a falsy value, such as `{}`, does not end the run. */
  lemma FalsyCachedValueContinues(s: AgentState)
    requires s.finalResult == Some(JObj(map[]))
    ensures Next(CheckCache, s) == SearchVectors
  {
  }

  /** The node sequences the graph admits: optional video, the cache check, then search, optional generation and the final analysis. */
  function Path(video: bool, hit: bool, generate: bool): seq<Node> {
    [RouteInput] + (if video then [ProcessVideo] else []) + [CheckCache]
    + (if hit then []
       else [SearchVectors] + (if generate then [GenerateKnowledge, IngestKnowledge] else []) + [PerformFinalAnalysis])
  }

  /**
   * The nodes a run executed and the state after each: `states[i]` follows `trace[i]`.
   * A run that failed has one node more than states (the node that raised).
   */
  ghost predicate Steps(trace: seq<Node>, states: seq<AgentState>) {
    && trace != [] && trace[0] == RouteInput
    && |states| <= |trace| <= |states| + 1
    && (forall i :: 0 <= i < |trace| ==> trace[i] != End)
    && forall i :: 0 <= i < |trace| - 1 ==> Routable(trace[i], states[i]) && trace[i + 1] == Next(trace[i], states[i])
  }

  /** Running the next node extends the trace. */
  lemma StepsAdd(trace: seq<Node>, states: seq<AgentState>, node: Node)
    requires node != End
    requires trace == [] ==> node == RouteInput && states == []
    requires trace != [] ==>
      && Steps(trace, states) && |trace| == |states|
      && Routable(trace[|trace| - 1], states[|states| - 1]) && node == Next(trace[|trace| - 1], states[|states| - 1])
    ensures Steps(trace + [node], states) && |trace + [node]| == |states| + 1
  {
    var t := trace + [node];
    forall i | 0 <= i < |t| - 1
      ensures Routable(t[i], states[i]) && t[i + 1] == Next(t[i], states[i])
    {
      if i < |trace| - 1 {
        assert t[i + 1] == trace[i + 1];
      }
    }
  }

  /** Merging the node's update records the state after it. */
  lemma StepsRecord(trace: seq<Node>, states: seq<AgentState>, s: AgentState)
    requires Steps(trace, states) && |trace| == |states| + 1
    ensures Steps(trace, states + [s]) && |trace| == |states + [s]|
  {
    var ss := states + [s];
    forall i | 0 <= i < |trace| - 1
      ensures Routable(trace[i], ss[i]) && trace[i + 1] == Next(trace[i], ss[i])
    {
      assert ss[i] == states[i];
    }
  }

  /** Every edge moves towards `END`. */
  lemma Descends(node: Node, s: AgentState)
    requires node != End && Routable(node, s)
    ensures Rank(Next(node, s)) < Rank(node)
  {
  }

  /** A run that reached `END`. */
  ghost predicate Completed(trace: seq<Node>, states: seq<AgentState>) {
    && Steps(trace, states) && |trace| == |states|
    && Routable(trace[|trace| - 1], states[|states| - 1])
    && Next(trace[|trace| - 1], states[|states| - 1]) == End
  }

  /** Whether the cache check ended the run. */
  predicate CacheExit(s: AgentState) {
    DecideAfterCache(s) == Exit
  }

  /** A node whose successor is `END` is the last one a completed run executed. */
  lemma LastStep(trace: seq<Node>, states: seq<AgentState>, i: nat)
    requires Completed(trace, states) && i < |trace|
    requires Routable(trace[i], states[i]) && Next(trace[i], states[i]) == End
    ensures i == |trace| - 1
  {
    if i < |trace| - 1 {
      NotLastNotEnd(trace, states, i);
    }
  }

  /** Before the last node of a run, no successor is `END`. */
  lemma NotLastNotEnd(trace: seq<Node>, states: seq<AgentState>, j: nat)
    requires Steps(trace, states) && j < |trace| - 1
    ensures Routable(trace[j], states[j]) && Next(trace[j], states[j]) != End
  {
    assert trace[j + 1] == Next(trace[j], states[j]);
  }

  /**
   * A completed run is one of the graph's paths: video processing iff the input has a video
   * path, exit right after the cache check iff it yields a truthy `final_result`, and
   * generation plus ingestion iff the search found nothing.
   */
  lemma {:induction false} CompletedRunPath(trace: seq<Node>, states: seq<AgentState>)
    requires Completed(trace, states)
    ensures var video := Present(states[0].videoFilePath);
      var c := if video then 2 else 1;
      && c < |trace| && trace[c] == CheckCache
      && (CacheExit(states[c]) ==> trace == Path(video, true, false))
      && (!CacheExit(states[c]) ==>
            c + 1 < |trace| && states[c + 1].vectorSearchResults.Some?
            && trace == Path(video, false, states[c + 1].vectorSearchResults.value == []))
  {
    var video := Present(states[0].videoFilePath);
    var c := if video then 2 else 1;
    assert 1 < |trace|;
    assert trace[1] == Next(RouteInput, states[0]);
    if video {
      assert trace[1] == ProcessVideo;
      assert 2 < |trace|;
      assert trace[2] == CheckCache;
    }
    if CacheExit(states[c]) {
      LastStep(trace, states, c);
      assert |trace| == c + 1;
    } else {
      assert c + 1 < |trace|;
      assert trace[c + 1] == SearchVectors;
      assert c + 2 < |trace|;
      var generate := states[c + 1].vectorSearchResults.value == [];
      if generate {
        assert trace[c + 2] == GenerateKnowledge;
        assert c + 3 < |trace|;
        assert trace[c + 3] == IngestKnowledge;
        assert c + 4 < |trace|;
        assert trace[c + 4] == PerformFinalAnalysis;
        LastStep(trace, states, c + 4);
        assert |trace| == c + 5;
      } else {
        assert trace[c + 2] == PerformFinalAnalysis;
        LastStep(trace, states, c + 2);
        assert |trace| == c + 3;
      }
    }
  }

  /** `"\n".join(res.get("text", "") for res in results)`. */
  function Context(results: seq<VectorIndex.Hit>): string {
    Text.Join(seq(|results|, i requires 0 <= i < |results| => results[i].text.GetOr("")), "\n")
  }

  /**
   * The context lists the results' texts in order, so knowledge appended last comes last;
   * appended to an empty list, the one generated passage is the whole context.
   */
  lemma ContextAppend(results: seq<VectorIndex.Hit>, knowledge: string)
    ensures Context(results + [VectorIndex.Hit(Some(knowledge))]) ==
      if results == [] then knowledge else Context(results) + "\n" + knowledge
  {
    var texts := seq(|results|, i requires 0 <= i < |results| => results[i].text.GetOr(""));
    var all := results + [VectorIndex.Hit(Some(knowledge))];
    assert seq(|all|, i requires 0 <= i < |all| => all[i].text.GetOr("")) == texts + [knowledge];
    if results == [] {
      assert texts + [knowledge] == [knowledge];
    } else {
      Text.JoinSnoc(texts, knowledge, "\n");
    }
  }

  /** `{"final_result": {"error": message}}`. */
  function ErrorResult(message: string): AgentState {
    NoUpdate.(finalResult := Some(Single("error", message)))
  }

  /** The state update a parsed cached value or a cache miss produces. */
  function FromCache(parse: JsonRepair.Parser, entries: map<string, string>, key: string): Result<AgentState> {
    if key in entries && entries[key] != "" then
      match parse(entries[key])
      case Some(v) => Ok(NoUpdate.(finalResult := Some(v)))
      case None => Err(DecodeFailure)
    else Ok(NoUpdate.(analysisCacheKey := Some(key)))
  }

  /** The document `ingest_knowledge` upserts. */
  function KnowledgeDoc(knowledge: string, embedding: seq<real>): VectorIndex.Doc {
    VectorIndex.Doc(None, knowledge, embedding, Some("generated_from_jd"), None)
  }

  /** What `generate_knowledge` makes of the retried call. */
  function FromKnowledgeCall(outcome: Retry.Outcome<Option<string>>): Result<AgentState> {
    match outcome
    case Returned(Some(t)) => Ok(NoUpdate.(generatedKnowledge := Some(t)))
    case Returned(None) => Err(NoKnowledge)
    case Raised(e) => Err(e)
    case FellThrough => Err(NoResponse)
  }

  /**
   * What the nodes observe of their collaborators between two steps: the analysis
   * cache's reachability and entries, the embedding cache and the vector store's
   * reachability. The operation logs are not part of it.
   */
  datatype World = World(redisUp: bool, analyses: map<string, string>, embeddings: Embeddings.CacheView, vectorsUp: bool)

  /** The vector store's logs: its searches and its upserts. */
  type Log = (seq<(seq<real>, nat)>, seq<VectorIndex.Doc>)

  /** The state node `i` of a run started from: the input for the first, else the state after the node before it. */
  function Before(input: AgentState, states: seq<AgentState>, i: nat): AgentState
    requires i <= |states|
  {
    if i == 0 then input else states[i - 1]
  }

  class CareerPilotAgent {
    /** `self.redis_client`: the analysis cache, holding JSON text. */
    const redisClient: KeyValue.Store<string>
    /**
     * `gemini_client.redis`, the cache `embed` reads and writes. It may be the same
     * store as `redisClient`.
     */
    const embeddingCache: KeyValue.Store?<string>
    const vectors: VectorIndex.VectorStore
    /** The Gemini client's embedding model, SHA-256, `embed_content` replies and vector codec. */
    const embedder: Embeddings.Embedder
    /** `generate_content`'s answer per prompt and invocation: the response's `text`, `None` when it has none. */
    const chatReply: string -> nat -> Result<Option<string>>
    /** `str(hash(s))`, fixed within one process. */
    const fingerprint: string -> string
    /** `extract_text_from_video(client, path)`: its dict of strings, or what it raises. */
    const extractVideo: string -> Result<map<string, string>>
    /** The `generate_knowledge` template formatted with `jd_text`. */
    const knowledgePrompt: string -> string
    /** The `final_analysis` template formatted with context, resume text and JD text. */
    const analysisPrompt: (string, string, string) -> string
    const parse: JsonRepair.Parser
    const dumps: Json -> string
    /** The graph state of the run in progress. */
    var state: AgentState

    constructor (redisClient: KeyValue.Store<string>, embeddingCache: KeyValue.Store?<string>,
                 vectors: VectorIndex.VectorStore, embedder: Embeddings.Embedder,
                 chatReply: string -> nat -> Result<Option<string>>,
                 fingerprint: string -> string, extractVideo: string -> Result<map<string, string>>,
                 knowledgePrompt: string -> string, analysisPrompt: (string, string, string) -> string,
                 parse: JsonRepair.Parser, dumps: Json -> string)
      ensures this.redisClient == redisClient && this.embeddingCache == embeddingCache && this.vectors == vectors
      ensures this.embedder == embedder
      ensures this.chatReply == chatReply && this.fingerprint == fingerprint && this.extractVideo == extractVideo
      ensures this.knowledgePrompt == knowledgePrompt && this.analysisPrompt == analysisPrompt
      ensures this.parse == parse && this.dumps == dumps && state == NoUpdate
    {
      this.redisClient := redisClient;
      this.embeddingCache := embeddingCache;
      this.vectors := vectors;
      this.embedder := embedder;
      this.chatReply := chatReply;
      this.fingerprint := fingerprint;
      this.extractVideo := extractVideo;
      this.knowledgePrompt := knowledgePrompt;
      this.analysisPrompt := analysisPrompt;
      this.parse := parse;
      this.dumps := dumps;
      state := NoUpdate;
    }

    /** The analysis cache key for a resume and a JD. */
    function AnalysisKey(resume: string, jd: string): (k: string)
      ensures k == "analysis:" + fingerprint(resume + jd)
    {
      "analysis:" + fingerprint(resume + jd)
    }

    /**
     * `process_video`: raises `ValueError` unless both extracted texts are non-empty, and
     * then sets exactly `resume_text` and `jd_text`.
     */
    function ProcessVideo(s: AgentState): (r: Result<AgentState>)
      ensures s.videoFilePath.None? ==> r == Err(MissingKey("video_file_path"))
      ensures s.videoFilePath.Some? && extractVideo(s.videoFilePath.value).Err? ==> r == Err(extractVideo(s.videoFilePath.value).error)
      ensures s.videoFilePath.Some? && extractVideo(s.videoFilePath.value).Ok? ==>
        var m := extractVideo(s.videoFilePath.value).value;
        if "resume_text" in m && m["resume_text"] != "" && "jd_text" in m && m["jd_text"] != ""
        then r == Ok(NoUpdate.(resumeText := Some(m["resume_text"]), jdText := Some(m["jd_text"])))
        else r == Err(NotExtracted)
    {
      if s.videoFilePath.None? then Err(MissingKey("video_file_path"))
      else match extractVideo(s.videoFilePath.value)
        case Err(e) => Err(e)
        case Ok(extracted) =>
          var resume := if "resume_text" in extracted then Some(extracted["resume_text"]) else None;
          var jd := if "jd_text" in extracted then Some(extracted["jd_text"]) else None;
          if !Present(resume) || !Present(jd) then Err(NotExtracted)
          else Ok(NoUpdate.(resumeText := resume, jdText := jd))
    }

    /** Whether the embedding cache is the analysis cache itself. */
    predicate Shared() {
      embeddingCache == redisClient
    }

    /** The collaborators' observable state. */
    function Snapshot(): World
      reads redisClient, embeddingCache, vectors
    {
      World(redisClient.reachable, redisClient.entries, Embeddings.View(embeddingCache), vectors.reachable)
    }

    /** The update `check_cache` returns, or what it raises. */
    function CheckCacheResult(s: AgentState, w: World): Result<AgentState> {
      if s.resumeText.None? then Err(MissingKey("resume_text"))
      else if s.jdText.None? then Err(MissingKey("jd_text"))
      else if !w.redisUp then Err(KeyValue.Unreachable)
      else FromCache(parse, w.analyses, AnalysisKey(s.resumeText.value, s.jdText.value))
    }

    /** The update `search_vectors` returns: the index's answer to the embedding of `jd_text`. */
    function SearchResult(s: AgentState, w: World): Result<AgentState> {
      if s.jdText.None? then Err(MissingKey("jd_text"))
      else
        var query := Embeddings.EmbedResult(w.embeddings, embedder, s.jdText.value);
        if query.Err? then Err(query.error)
        else if !w.vectorsUp then Err(VectorIndex.Unreachable)
        else Ok(NoUpdate.(vectorSearchResults := Some(vectors.answer(query.value, TopK))))
    }

    /** The update `generate_knowledge` returns. */
    function GenerateResult(s: AgentState): Result<AgentState> {
      if s.jdText.None? then Err(MissingKey("jd_text"))
      else FromKnowledgeCall(KnowledgeRun(s.jdText.value).outcome)
    }

    /** The update `ingest_knowledge` returns once the knowledge's embedding is stored. */
    function IngestResult(s: AgentState, w: World): Result<AgentState> {
      if s.generatedKnowledge.None? then Err(NoKnowledge)
      else
        var embedding := Embeddings.EmbedResult(w.embeddings, embedder, s.generatedKnowledge.value);
        if embedding.Err? then Err(embedding.error)
        else if !w.vectorsUp then Err(VectorIndex.Unreachable)
        else Ok(NoUpdate.(vectorSearchResults := Some(s.vectorSearchResults.GetOr([]) + [VectorIndex.Hit(Some(s.generatedKnowledge.value))])))
    }

    /** The update `perform_final_analysis` returns. */
    function FinalResult(s: AgentState, w: World): Result<AgentState> {
      if !Present(s.resumeText) || !Present(s.jdText) then Ok(ErrorResult("Missing resume or JD"))
      else if !Ready(s) then Ok(ErrorResult("No vector context"))
      else match AnalysisRun(s).outcome
        case Raised(e) => Err(e)
        case FellThrough => Ok(ErrorResult("LLM returned empty response"))
        case Returned(text) =>
          if !Present(text) then Ok(ErrorResult("LLM returned empty response"))
          else if Present(s.analysisCacheKey) && !w.redisUp then Err(KeyValue.Unreachable)
          else Ok(NoUpdate.(finalResult := Some(JsonRepair.SafeJsonParse(parse, text.value))))
    }

    /** The key and the JSON text `perform_final_analysis` writes to the analysis cache, if it writes. */
    function FinalWrite(s: AgentState): Option<(string, string)> {
      if Ready(s) && AnalysisRun(s).outcome.Returned? && Present(AnalysisRun(s).outcome.value) && Present(s.analysisCacheKey) then
        Some((s.analysisCacheKey.value, dumps(JsonRepair.SafeJsonParse(parse, AnalysisRun(s).outcome.value.value))))
      else None
    }

    /** The node's update, or what it raises, in terms of the state and the world before it. */
    function NodeResult(node: Node, s: AgentState, w: World): (r: Result<AgentState>)
      requires node != Node.End
      ensures node == Node.SearchVectors && r.Ok? ==> r.value.vectorSearchResults.Some?
    {
      match node
      case RouteInput => Ok(NoUpdate)
      case ProcessVideo => ProcessVideo(s)
      case CheckCache => CheckCacheResult(s, w)
      case SearchVectors => SearchResult(s, w)
      case GenerateKnowledge => GenerateResult(s)
      case IngestKnowledge => IngestResult(s, w)
      case PerformFinalAnalysis => FinalResult(s, w)
    }

    /** The world after `embed(text)`; a shared cache sees the write in both roles. */
    function EmbedWorld(w: World, text: string): World {
      var v := Embeddings.EmbedView(w.embeddings, embedder, text);
      w.(embeddings := v, analyses := if Shared() && v.Cache? then v.entries else w.analyses)
    }

    /** The world after `perform_final_analysis`: its write, when the cache takes it. */
    function FinalWorld(s: AgentState, w: World): World {
      var written := FinalWrite(s);
      if written.Some? then StoredWorld(w, written.value.0, written.value.1) else w
    }

    /** The world after `node` ran on `s`: only the embedding nodes and the final analysis write. */
    function NextWorld(node: Node, s: AgentState, w: World): World {
      match node
      case SearchVectors => if s.jdText.None? then w else EmbedWorld(w, s.jdText.value)
      case IngestKnowledge => if s.generatedKnowledge.None? then w else EmbedWorld(w, s.generatedKnowledge.value)
      case PerformFinalAnalysis => FinalWorld(s, w)
      case _ => w
    }

    /**
     * `check_cache`: one read of `"analysis:" + hash(resume_text + jd_text)`. A non-empty
     * cached text sets only `final_result` to its parse; otherwise only `analysis_cache_key` is set.
     */
    method CheckCache(s: AgentState) returns (r: Result<AgentState>)
      modifies redisClient
      ensures redisClient.entries == old(redisClient.entries) && redisClient.reachable == old(redisClient.reachable)
      ensures s.resumeText.None? ==> r == Err(MissingKey("resume_text")) && redisClient.ops == old(redisClient.ops)
      ensures s.resumeText.Some? && s.jdText.None? ==> r == Err(MissingKey("jd_text")) && redisClient.ops == old(redisClient.ops)
      ensures s.resumeText.Some? && s.jdText.Some? ==>
        && redisClient.ops == old(redisClient.ops) + [KeyValue.GetOp(AnalysisKey(s.resumeText.value, s.jdText.value))]
        && (!redisClient.reachable ==> r == Err(KeyValue.Unreachable))
        && (redisClient.reachable ==> r == FromCache(parse, redisClient.entries, AnalysisKey(s.resumeText.value, s.jdText.value)))
      ensures r.Ok? ==> (r.value.finalResult.Some? <==> r.value.analysisCacheKey.None?)
      ensures r.Ok? ==> r.value == NoUpdate.(finalResult := r.value.finalResult, analysisCacheKey := r.value.analysisCacheKey)
      ensures r == CheckCacheResult(s, old(Snapshot())) && Snapshot() == old(Snapshot())
    {
      if s.resumeText.None? {
        return Err(MissingKey("resume_text"));
      }
      if s.jdText.None? {
        return Err(MissingKey("jd_text"));
      }
      var key := AnalysisKey(s.resumeText.value, s.jdText.value);
      var cached := redisClient.Get(key);
      if cached.Err? {
        return Err(cached.error);
      }
      if cached.value.Some? && cached.value.value != "" {
        var parsed := parse(cached.value.value);
        if parsed.None? {
          return Err(DecodeFailure);
        }
        return Ok(NoUpdate.(finalResult := parsed));
      }
      r := Ok(NoUpdate.(analysisCacheKey := Some(key)));
    }

    /** `embed(self.gemini_client, text)` against the embedding cache. */
    method EmbedText(text: string) returns (r: Result<seq<real>>)
      modifies embeddingCache
      ensures r == Embeddings.EmbedResult(old(Snapshot()).embeddings, embedder, text)
      ensures Snapshot() == EmbedWorld(old(Snapshot()), text)
      ensures embeddingCache != null ==>
        embeddingCache.ops == old(embeddingCache.ops) + Embeddings.EmbedOps(old(Snapshot()).embeddings, embedder, text)
    {
      ghost var w := Snapshot();
      ghost var v := Embeddings.EmbedView(w.embeddings, embedder, text);
      var calls;
      r, calls := Embeddings.Embed(embeddingCache, embedder, text);
      assert Embeddings.View(embeddingCache) == v;
      if Shared() {
        assert v == Embeddings.Cache(redisClient.reachable, redisClient.entries);
      } else {
        assert redisClient.reachable == w.redisUp && redisClient.entries == w.analyses;
      }
    }

    /** `search_vectors`: embeds `jd_text` and searches with `top_k=3`; sets only `vector_search_results`. */
    method SearchVectors(s: AgentState) returns (r: Result<AgentState>, query: seq<real>)
      modifies embeddingCache, vectors
      ensures vectors.upserts == old(vectors.upserts) && vectors.reachable == old(vectors.reachable)
      ensures s.jdText.None? ==> r == Err(MissingKey("jd_text")) && vectors.searches == old(vectors.searches)
      ensures s.jdText.Some? && !vectors.reachable ==> r.Err?
      ensures r.Ok? ==>
        && vectors.searches == old(vectors.searches) + [(query, TopK)]
        && r.value == NoUpdate.(vectorSearchResults := Some(vectors.answer(query, TopK)))
      // the query is `embed(jd_text)` against the embedding cache as it was
      ensures r.Ok? ==> Ok(query) == Embeddings.EmbedResult(old(Embeddings.View(embeddingCache)), embedder, s.jdText.value)
      ensures s.jdText.Some? && embeddingCache != null ==>
        embeddingCache.ops == old(embeddingCache.ops) + Embeddings.EmbedOps(old(Embeddings.View(embeddingCache)), embedder, s.jdText.value)
      ensures r == SearchResult(s, old(Snapshot()))
      ensures Snapshot() == if s.jdText.None? then old(Snapshot()) else EmbedWorld(old(Snapshot()), s.jdText.value)
    {
      query := [];
      if s.jdText.None? {
        return Err(MissingKey("jd_text")), query;
      }
      ghost var w := Snapshot();
      assert w.embeddings == Embeddings.View(embeddingCache);
      var embedded := EmbedText(s.jdText.value);
      ghost var after := Snapshot();
      assert after == EmbedWorld(w, s.jdText.value);
      assert embedded == Embeddings.EmbedResult(w.embeddings, embedder, s.jdText.value);
      if embedded.Err? {
        assert SearchResult(s, w) == Err(embedded.error);
        return Err(embedded.error), query;
      }
      query := embedded.value;
      var results := vectors.Search(query, TopK);
      assert Snapshot() == after;
      if results.Err? {
        assert SearchResult(s, w) == Err(VectorIndex.Unreachable);
        return Err(results.error), query;
      }
      r := Ok(NoUpdate.(vectorSearchResults := Some(results.value)));
      assert r == SearchResult(s, w);
    }

    /** What the retried `generate_content` call does for the knowledge prompt. */
    function KnowledgeRun(jd: string): Retry.Run<Option<string>> {
      Retry.From(chatReply(knowledgePrompt(jd)), Retry.DefaultRetries, Retry.DefaultBaseDelay, 1)
    }

    /**
     * `generate_knowledge`: one retried model call on the formatted prompt; sets only
     * `generated_knowledge`. A response without text makes the following ingestion raise;
     * the model raises that error here, since nothing observable happens in between.
     */
    method GenerateKnowledge(s: AgentState) returns (r: Result<AgentState>, invocations: nat)
      ensures s.jdText.None? ==> r == Err(MissingKey("jd_text")) && invocations == 0
      ensures s.jdText.Some? ==>
        invocations == KnowledgeRun(s.jdText.value).invocations && r == FromKnowledgeCall(KnowledgeRun(s.jdText.value).outcome)
      ensures r.Ok? ==> r.value.generatedKnowledge.Some? && r.value == NoUpdate.(generatedKnowledge := r.value.generatedKnowledge)
    {
      if s.jdText.None? {
        return Err(MissingKey("jd_text")), 0;
      }
      var outcome, n, sleeps := Retry.RetryAsync(chatReply(knowledgePrompt(s.jdText.value)), Retry.DefaultRetries, Retry.DefaultBaseDelay);
      invocations := n;
      match outcome
      case Returned(text) =>
        if text.None? {
          return Err(NoKnowledge), invocations;
        }
        r := Ok(NoUpdate.(generatedKnowledge := text));
      case Raised(e) =>
        r := Err(e);
      case FellThrough =>
        r := Err(NoResponse);
    }

    /**
     * `ingest_knowledge`: upserts exactly one document `{text, embedding, source}` and sets
     * `vector_search_results` to the old list with `{"text": generated_knowledge}` appended.
     */
    method IngestKnowledge(s: AgentState) returns (r: Result<AgentState>, embedding: seq<real>)
      modifies embeddingCache, vectors
      ensures vectors.searches == old(vectors.searches) && vectors.reachable == old(vectors.reachable)
      ensures s.generatedKnowledge.None? ==> r == Err(NoKnowledge)
      ensures r.Err? ==> vectors.upserts == old(vectors.upserts)
      ensures s.generatedKnowledge.Some? && !vectors.reachable ==> r.Err?
      ensures r.Ok? ==>
        var knowledge := s.generatedKnowledge.value;
        && vectors.upserts == old(vectors.upserts) + [KnowledgeDoc(knowledge, embedding)]
        && r.value == NoUpdate.(vectorSearchResults := Some(s.vectorSearchResults.GetOr([]) + [VectorIndex.Hit(Some(knowledge))]))
      // the stored embedding is `embed(generated_knowledge)` against the embedding cache as it was
      ensures r.Ok? ==> Ok(embedding) == Embeddings.EmbedResult(old(Embeddings.View(embeddingCache)), embedder, s.generatedKnowledge.value)
      ensures s.generatedKnowledge.Some? && embeddingCache != null ==>
        embeddingCache.ops == old(embeddingCache.ops) + Embeddings.EmbedOps(old(Embeddings.View(embeddingCache)), embedder, s.generatedKnowledge.value)
      ensures r == IngestResult(s, old(Snapshot()))
      ensures Snapshot() == if s.generatedKnowledge.None? then old(Snapshot()) else EmbedWorld(old(Snapshot()), s.generatedKnowledge.value)
    {
      embedding := [];
      if s.generatedKnowledge.None? {
        return Err(NoKnowledge), embedding;
      }
      ghost var w := Snapshot();
      assert w.embeddings == Embeddings.View(embeddingCache);
      var knowledge := s.generatedKnowledge.value;
      var embedded := EmbedText(knowledge);
      ghost var after := Snapshot();
      assert after == EmbedWorld(w, knowledge);
      assert embedded == Embeddings.EmbedResult(w.embeddings, embedder, knowledge);
      if embedded.Err? {
        assert IngestResult(s, w) == Err(embedded.error);
        return Err(embedded.error), embedding;
      }
      embedding := embedded.value;
      var stored := vectors.Upsert(KnowledgeDoc(knowledge, embedding));
      assert Snapshot() == after;
      if stored.Err? {
        assert IngestResult(s, w) == Err(VectorIndex.Unreachable);
        return Err(stored.error), embedding;
      }
      var current := s.vectorSearchResults.GetOr([]);
      current := current + [VectorIndex.Hit(Some(knowledge))];
      r := Ok(NoUpdate.(vectorSearchResults := Some(current)));
      assert r == IngestResult(s, w);
    }

    /** What the retried `generate_content` call does for the final-analysis prompt. */
    function AnalysisRun(s: AgentState): Retry.Run<Option<string>>
      requires s.resumeText.Some? && s.jdText.Some? && s.vectorSearchResults.Some?
    {
      var prompt := analysisPrompt(Context(s.vectorSearchResults.value), s.resumeText.value, s.jdText.value);
      Retry.From(chatReply(prompt), Retry.DefaultRetries, Retry.DefaultBaseDelay, 1)
    }

    /** Whether `perform_final_analysis` gets as far as the model call. */
    predicate Ready(s: AgentState) {
      Present(s.resumeText) && Present(s.jdText) && s.vectorSearchResults.Some? && s.vectorSearchResults.value != []
    }

    /** The world after the analysis cache stores `value` under `key`; a shared cache sees it in both roles. */
    function StoredWorld(w: World, key: string, value: string): World {
      if w.redisUp then
        var entries := w.analyses[key := value];
        w.(analyses := entries, embeddings := if Shared() then Embeddings.Cache(true, entries) else w.embeddings)
      else w
    }

    /** `redis_client.set(key, value, ex=3600)`. */
    method StoreAnalysis(key: string, value: string) returns (written: Result<()>)
      modifies redisClient
      ensures written == if old(redisClient.reachable) then Ok(()) else Err(KeyValue.Unreachable)
      ensures redisClient.ops == old(redisClient.ops) + [KeyValue.SetOp(key, value, Some(AnalysisTtl))]
      ensures Snapshot() == StoredWorld(old(Snapshot()), key, value)
    {
      ghost var w := Snapshot();
      written := redisClient.Set(key, value, Some(AnalysisTtl));
      if Shared() {
        assert Embeddings.View(embeddingCache) == Embeddings.Cache(redisClient.reachable, redisClient.entries);
      } else {
        assert Embeddings.View(embeddingCache) == w.embeddings;
      }
    }

    /**
     * The cases of `perform_final_analysis`: the two guards and an empty reply change
     * nothing; a reply with text is parsed, and written under the analysis key when one is set.
     */
    lemma FinalCases(s: AgentState, w: World)
      ensures !Ready(s) || !AnalysisRun(s).outcome.Returned? || !Present(AnalysisRun(s).outcome.value) ==> FinalWorld(s, w) == w
      ensures !Present(s.resumeText) || !Present(s.jdText) ==> FinalResult(s, w) == Ok(ErrorResult("Missing resume or JD"))
      ensures Present(s.resumeText) && Present(s.jdText) && !Ready(s) ==> FinalResult(s, w) == Ok(ErrorResult("No vector context"))
      ensures Ready(s) && AnalysisRun(s).outcome.Raised? ==> FinalResult(s, w) == Err(AnalysisRun(s).outcome.error)
      ensures Ready(s) && (AnalysisRun(s).outcome.FellThrough? || (AnalysisRun(s).outcome.Returned? && !Present(AnalysisRun(s).outcome.value))) ==>
        FinalResult(s, w) == Ok(ErrorResult("LLM returned empty response"))
      ensures Ready(s) && AnalysisRun(s).outcome.Returned? && Present(AnalysisRun(s).outcome.value) ==>
        var result := JsonRepair.SafeJsonParse(parse, AnalysisRun(s).outcome.value.value);
        if Present(s.analysisCacheKey) then
          && FinalResult(s, w) == (if w.redisUp then Ok(NoUpdate.(finalResult := Some(result))) else Err(KeyValue.Unreachable))
          && FinalWorld(s, w) == StoredWorld(w, s.analysisCacheKey.value, dumps(result))
        else
          FinalResult(s, w) == Ok(NoUpdate.(finalResult := Some(result))) && FinalWorld(s, w) == w
    {
    }

    /**
     * `perform_final_analysis`: the explicit error results come before any model call and
     * never write the cache; a non-empty response is parsed by `safe_json_parse`, written
     * with `ex=3600` iff `analysis_cache_key` is truthy, and returned as `final_result`.
     */
    method PerformFinalAnalysis(s: AgentState) returns (r: Result<AgentState>, invocations: nat)
      modifies redisClient
      ensures redisClient.reachable == old(redisClient.reachable)
      ensures !Present(s.resumeText) || !Present(s.jdText) ==>
        r == Ok(ErrorResult("Missing resume or JD")) && invocations == 0 && redisClient.ops == old(redisClient.ops)
      ensures Present(s.resumeText) && Present(s.jdText) && !Ready(s) ==>
        r == Ok(ErrorResult("No vector context")) && invocations == 0 && redisClient.ops == old(redisClient.ops)
      ensures Ready(s) ==> invocations == AnalysisRun(s).invocations
      ensures Ready(s) && AnalysisRun(s).outcome.Raised? ==>
        r == Err(AnalysisRun(s).outcome.error) && redisClient.ops == old(redisClient.ops)
      ensures Ready(s) && !AnalysisRun(s).outcome.Raised? && !Present(AnalysisRun(s).outcome.value) ==>
        r == Ok(ErrorResult("LLM returned empty response")) && redisClient.ops == old(redisClient.ops)
      ensures Ready(s) && AnalysisRun(s).outcome.Returned? && Present(AnalysisRun(s).outcome.value) ==>
        var result := JsonRepair.SafeJsonParse(parse, AnalysisRun(s).outcome.value.value);
        if Present(s.analysisCacheKey) then
          && redisClient.ops == old(redisClient.ops) + [KeyValue.SetOp(s.analysisCacheKey.value, dumps(result), Some(AnalysisTtl))]
          && (redisClient.reachable ==>
                r == Ok(NoUpdate.(finalResult := Some(result)))
                && redisClient.entries == old(redisClient.entries)[s.analysisCacheKey.value := dumps(result)])
          && (!redisClient.reachable ==> r == Err(KeyValue.Unreachable))
        else
          r == Ok(NoUpdate.(finalResult := Some(result))) && redisClient.ops == old(redisClient.ops)
      ensures r.Ok? ==> r.value.finalResult.Some? && r.value == NoUpdate.(finalResult := r.value.finalResult)
      ensures r == FinalResult(s, old(Snapshot())) && Snapshot() == FinalWorld(s, old(Snapshot()))
    {
      ghost var w := Snapshot();
      FinalCases(s, w);
      if !Present(s.resumeText) || !Present(s.jdText) {
        return Ok(ErrorResult("Missing resume or JD")), 0;
      }
      if s.vectorSearchResults.None? || s.vectorSearchResults.value == [] {
        return Ok(ErrorResult("No vector context")), 0;
      }
      var context := Context(s.vectorSearchResults.value);
      var prompt := analysisPrompt(context, s.resumeText.value, s.jdText.value);
      var outcome, n, sleeps := Retry.RetryAsync(chatReply(prompt), Retry.DefaultRetries, Retry.DefaultBaseDelay);
      assert outcome == AnalysisRun(s).outcome && n == AnalysisRun(s).invocations;
      invocations := n;
      if outcome.Raised? {
        return Err(outcome.error), invocations;
      }
      if outcome.FellThrough? || !Present(outcome.value) {
        return Ok(ErrorResult("LLM returned empty response")), invocations;
      }
      ghost var text := AnalysisRun(s).outcome.value.value;
      var result := JsonRepair.SafeJsonParse(parse, outcome.value.value);
      assert result == JsonRepair.SafeJsonParse(parse, text);
      if Present(s.analysisCacheKey) {
        var written := StoreAnalysis(s.analysisCacheKey.value, dumps(result));
        if written.Err? {
          return Err(written.error), invocations;
        }
      }
      r := Ok(NoUpdate.(finalResult := Some(result)));
    }

    /** Runs the node `node` on the current state. */
    method Step(node: Node) returns (r: Result<AgentState>)
      requires node != Node.End
      modifies redisClient, embeddingCache, vectors
      ensures node == Node.SearchVectors && r.Ok? ==> r.value.vectorSearchResults.Some?
      ensures node == Node.RouteInput ==> r == Ok(NoUpdate)
      ensures node == Node.ProcessVideo ==> r == ProcessVideo(state)
      ensures node != Node.SearchVectors && node != Node.IngestKnowledge ==>
        vectors.searches == old(vectors.searches) && vectors.upserts == old(vectors.upserts)
      ensures node == Node.IngestKnowledge ==> vectors.searches == old(vectors.searches)
      ensures vectors.reachable == old(vectors.reachable)
      ensures r == NodeResult(node, state, old(Snapshot()))
      ensures Snapshot() == NextWorld(node, state, old(Snapshot()))
    {
      match node
      case RouteInput => r := Ok(NoUpdate);
      case ProcessVideo => r := ProcessVideo(state);
      case CheckCache => r := CheckCache(state);
      case SearchVectors => var query; r, query := SearchVectors(state);
      case GenerateKnowledge => var n; r, n := GenerateKnowledge(state);
      case IngestKnowledge => var e; r, e := IngestKnowledge(state);
      case PerformFinalAnalysis => var n; r, n := PerformFinalAnalysis(state);
    }

    /**
     * The run from `node` on state `s` in the world `w`, as the graph defines it: each
     * node's update is merged and the routers pick the successor, until `END` or until a
     * node raises. Returns the final result and the final world.
     */
    function Simulate(node: Node, s: AgentState, w: World): (Result<AgentState>, World)
      decreases Rank(node), 1
    {
      if node == Node.End then (Ok(s), w) else Continue(node, s, w)
    }

    /** The run from a node other than `END`: the node's update, then the run from its successor. */
    function Continue(node: Node, s: AgentState, w: World): (Result<AgentState>, World)
      requires node != Node.End
      decreases Rank(node), 0
    {
      match NodeResult(node, s, w)
      case Err(e) => (Err(e), NextWorld(node, s, w))
      case Ok(u) =>
        var t := Merge(s, u);
        Descends(node, t);
        Simulate(Next(node, t), t, NextWorld(node, s, w))
    }

    /** Whether the graph's run from `node` on `s` in `w` ends in `outcome`. */
    predicate Leads(outcome: (Result<AgentState>, World), node: Node, s: AgentState, w: World) {
      Simulate(node, s, w) == outcome
    }

    /** One step of the graph's run: a node that raises ends it, otherwise the run goes on from its successor. */
    lemma SimulateStep(node: Node, s: AgentState, w: World, res: Result<AgentState>)
      requires node != Node.End && res == NodeResult(node, s, w)
      ensures res.Err? ==> Simulate(node, s, w) == (Err(res.error), NextWorld(node, s, w))
      ensures res.Ok? ==>
        && Routable(node, Merge(s, res.value))
        && Simulate(node, s, w) == Simulate(Next(node, Merge(s, res.value)), Merge(s, res.value), NextWorld(node, s, w))
    {
      assert Simulate(node, s, w) == Continue(node, s, w);
    }

    /** The final node ends the run: its update merged into the state, or its error, and its cache write. */
    lemma FinalNode(s: AgentState, w: World)
      ensures Simulate(Node.PerformFinalAnalysis, s, w) ==
        (match FinalResult(s, w) case Ok(u) => Ok(Merge(s, u)) case Err(e) => Err(e), FinalWorld(s, w))
    {
      SimulateStep(Node.PerformFinalAnalysis, s, w, FinalResult(s, w));
    }

    /** The request a text run starts from: `{"resume_text": resume, "jd_text": jd}`. */
    function Request(resume: string, jd: string): AgentState {
      NoUpdate.(resumeText := Some(resume), jdText := Some(jd))
    }

    /** Whether the analysis cache holds a non-empty text under `key`. */
    predicate CachedAnalysis(w: World, key: string) {
      key in w.analyses && w.analyses[key] != ""
    }

    /**
     * A cache hit is a pure exit: when the cached text for the request parses to a truthy
     * value, the run returns that value as `final_result` right after `check_cache`, and
     * no node after it runs, so no embedding, search, model call or write happens.
     */
    lemma CacheHitRun(resume: string, jd: string, w: World, v: Json)
      requires w.redisUp && CachedAnalysis(w, AnalysisKey(resume, jd))
      requires parse(w.analyses[AnalysisKey(resume, jd)]) == Some(v) && Truthy(v)
      ensures Simulate(Node.RouteInput, Request(resume, jd), w) == (Ok(Request(resume, jd).(finalResult := Some(v))), w)
    {
      var input := Request(resume, jd);
      SimulateStep(Node.RouteInput, input, w, Ok(NoUpdate));
      assert Merge(input, NoUpdate) == input;
      var u := CheckCacheResult(input, w);
      assert u == Ok(NoUpdate.(finalResult := Some(v)));
      SimulateStep(Node.CheckCache, input, w, u);
      assert Merge(input, u.value) == input.(finalResult := Some(v));
    }

    /** On a cache miss the run records the analysis key and goes on to the vector search. */
    lemma CacheMissRun(resume: string, jd: string, w: World)
      requires w.redisUp && !CachedAnalysis(w, AnalysisKey(resume, jd))
      ensures Simulate(Node.RouteInput, Request(resume, jd), w) ==
        Simulate(Node.SearchVectors, Request(resume, jd).(analysisCacheKey := Some(AnalysisKey(resume, jd))), w)
    {
      var input := Request(resume, jd);
      SimulateStep(Node.RouteInput, input, w, Ok(NoUpdate));
      assert Merge(input, NoUpdate) == input;
      var u := CheckCacheResult(input, w);
      assert u == Ok(NoUpdate.(analysisCacheKey := Some(AnalysisKey(resume, jd))));
      SimulateStep(Node.CheckCache, input, w, u);
      assert Merge(input, u.value) == input.(analysisCacheKey := Some(AnalysisKey(resume, jd)));
    }

    /** The state after the search on a miss. */
    function Searched(resume: string, jd: string, hits: seq<VectorIndex.Hit>): AgentState {
      Request(resume, jd).(analysisCacheKey := Some(AnalysisKey(resume, jd)), vectorSearchResults := Some(hits))
    }

    /**
     * A miss whose search finds context: the final call's text is parsed by
     * `safe_json_parse`, returned as `final_result`, and written under the run's
     * analysis key; nothing else is written to the analysis cache.
     */
    lemma AugmentedRun(resume: string, jd: string, w: World, text: string)
      requires resume != "" && jd != "" && w.redisUp && w.vectorsUp && !CachedAnalysis(w, AnalysisKey(resume, jd))
      requires Embeddings.EmbedResult(w.embeddings, embedder, jd).Ok?
      requires vectors.answer(Embeddings.EmbedResult(w.embeddings, embedder, jd).value, TopK) != []
      requires AnalysisRun(Searched(resume, jd, vectors.answer(Embeddings.EmbedResult(w.embeddings, embedder, jd).value, TopK))).outcome
        == Retry.Returned(Some(text)) && text != ""
      ensures var s := Searched(resume, jd, vectors.answer(Embeddings.EmbedResult(w.embeddings, embedder, jd).value, TopK));
        var result := JsonRepair.SafeJsonParse(parse, text);
        Simulate(Node.RouteInput, Request(resume, jd), w) ==
          (Ok(s.(finalResult := Some(result))), StoredWorld(EmbedWorld(w, jd), AnalysisKey(resume, jd), dumps(result)))
    {
      var hits := vectors.answer(Embeddings.EmbedResult(w.embeddings, embedder, jd).value, TopK);
      var s1 := Request(resume, jd).(analysisCacheKey := Some(AnalysisKey(resume, jd)));
      CacheMissRun(resume, jd, w);
      SearchStep(s1, w);
      var s := Searched(resume, jd, hits);
      assert s1.(vectorSearchResults := Some(hits)) == s;
      var w2 := EmbedWorld(w, jd);
      assert w2.redisUp;
      FinalNode(s, w2);
    }

    /** The search node on a state with `jd_text`: its hits are merged, then the router picks the next node. */
    lemma SearchStep(s: AgentState, w: World)
      requires s.jdText.Some? && w.vectorsUp && Embeddings.EmbedResult(w.embeddings, embedder, s.jdText.value).Ok?
      ensures var hits := vectors.answer(Embeddings.EmbedResult(w.embeddings, embedder, s.jdText.value).value, TopK);
        var t := s.(vectorSearchResults := Some(hits));
        Simulate(Node.SearchVectors, s, w) ==
          Simulate(if hits == [] then Node.GenerateKnowledge else Node.PerformFinalAnalysis, t, EmbedWorld(w, s.jdText.value))
    {
      var u := SearchResult(s, w);
      SimulateStep(Node.SearchVectors, s, w, u);
      assert Merge(s, u.value) == s.(vectorSearchResults := u.value.vectorSearchResults);
    }

    /**
     * Generation then ingestion: the passage is recorded, embedded and appended to the
     * results, and the run goes on to the final analysis.
     */
    lemma GenerateThenIngest(s: AgentState, w: World, knowledge: string)
      requires s.jdText.Some? && KnowledgeRun(s.jdText.value).outcome == Retry.Returned(Some(knowledge))
      requires w.vectorsUp && Embeddings.EmbedResult(w.embeddings, embedder, knowledge).Ok?
      ensures Simulate(Node.GenerateKnowledge, s, w) ==
        Simulate(Node.PerformFinalAnalysis,
                 s.(generatedKnowledge := Some(knowledge),
                    vectorSearchResults := Some(s.vectorSearchResults.GetOr([]) + [VectorIndex.Hit(Some(knowledge))])),
                 EmbedWorld(w, knowledge))
    {
      var g := GenerateResult(s);
      assert g == Ok(NoUpdate.(generatedKnowledge := Some(knowledge)));
      SimulateStep(Node.GenerateKnowledge, s, w, g);
      var s3 := s.(generatedKnowledge := Some(knowledge));
      assert Merge(s, g.value) == s3;
      var hits := s.vectorSearchResults.GetOr([]) + [VectorIndex.Hit(Some(knowledge))];
      var i := IngestResult(s3, w);
      assert i == Ok(NoUpdate.(vectorSearchResults := Some(hits)));
      SimulateStep(Node.IngestKnowledge, s3, w, i);
      assert Merge(s3, i.value) == s3.(vectorSearchResults := Some(hits));
      assert NextWorld(Node.IngestKnowledge, s3, w) == EmbedWorld(w, knowledge);
    }

    /**
     * A miss whose search finds nothing: the generated passage is embedded and appended,
     * and the final analysis then runs with that passage as its whole context.
     */
    lemma GeneratedRun(resume: string, jd: string, w: World, knowledge: string)
      requires w.redisUp && w.vectorsUp && !CachedAnalysis(w, AnalysisKey(resume, jd))
      requires Embeddings.EmbedResult(w.embeddings, embedder, jd).Ok?
      requires vectors.answer(Embeddings.EmbedResult(w.embeddings, embedder, jd).value, TopK) == []
      requires KnowledgeRun(jd).outcome == Retry.Returned(Some(knowledge))
      requires Embeddings.EmbedResult(EmbedWorld(w, jd).embeddings, embedder, knowledge).Ok?
      ensures var s := Searched(resume, jd, [VectorIndex.Hit(Some(knowledge))]).(generatedKnowledge := Some(knowledge));
        && Context(s.vectorSearchResults.value) == knowledge
        && Simulate(Node.RouteInput, Request(resume, jd), w) ==
             Simulate(Node.PerformFinalAnalysis, s, EmbedWorld(EmbedWorld(w, jd), knowledge))
    {
      var s1 := Request(resume, jd).(analysisCacheKey := Some(AnalysisKey(resume, jd)));
      CacheMissRun(resume, jd, w);
      SearchStep(s1, w);
      var s2 := Searched(resume, jd, []);
      assert s1.(vectorSearchResults := Some([])) == s2;
      var w2 := EmbedWorld(w, jd);
      assert w2.vectorsUp;
      GenerateThenIngest(s2, w2, knowledge);
      assert [] + [VectorIndex.Hit(Some(knowledge))] == [VectorIndex.Hit(Some(knowledge))];
      ContextAppend([], knowledge);
    }

    /** `json.loads` reads back every value `json.dumps` writes, and no written text is empty. */
    ghost predicate CodecRoundTrips() {
      forall v :: parse(dumps(v)) == Some(v) && dumps(v) != ""
    }

    /**
     * Cache idempotence: after an augmented run, the same request in the world it left
     * behind is a cache hit that returns the same `final_result` and changes nothing,
     * provided the result is truthy. A falsy result such as `{}` is cached but never hits:
     * the re-run searches again with that value merged and no analysis key.
     */
    lemma RepeatedRunHits(resume: string, jd: string, w: World, text: string)
      requires resume != "" && jd != "" && w.redisUp && w.vectorsUp && !CachedAnalysis(w, AnalysisKey(resume, jd))
      requires Embeddings.EmbedResult(w.embeddings, embedder, jd).Ok?
      requires vectors.answer(Embeddings.EmbedResult(w.embeddings, embedder, jd).value, TopK) != []
      requires AnalysisRun(Searched(resume, jd, vectors.answer(Embeddings.EmbedResult(w.embeddings, embedder, jd).value, TopK))).outcome
        == Retry.Returned(Some(text)) && text != ""
      requires CodecRoundTrips()
      ensures var first := Simulate(Node.RouteInput, Request(resume, jd), w);
        var result := JsonRepair.SafeJsonParse(parse, text);
        && first.0.Ok? && first.0.value.finalResult == Some(result)
        && (Truthy(result) ==>
              Simulate(Node.RouteInput, Request(resume, jd), first.1) == (Ok(Request(resume, jd).(finalResult := Some(result))), first.1))
        && (!Truthy(result) ==>
              Simulate(Node.RouteInput, Request(resume, jd), first.1) ==
              Simulate(Node.SearchVectors, Request(resume, jd).(finalResult := Some(result)), first.1))
    {
      AugmentedRun(resume, jd, w, text);
      var result := JsonRepair.SafeJsonParse(parse, text);
      var key := AnalysisKey(resume, jd);
      var w1 := StoredWorld(EmbedWorld(w, jd), key, dumps(result));
      assert w1.redisUp && w1.analyses[key] == dumps(result);
      assert parse(dumps(result)) == Some(result) && dumps(result) != "";
      if Truthy(result) {
        CacheHitRun(resume, jd, w1, result);
      } else {
        var input := Request(resume, jd);
        SimulateStep(Node.RouteInput, input, w1, Ok(NoUpdate));
        assert Merge(input, NoUpdate) == input;
        var u := CheckCacheResult(input, w1);
        assert u == Ok(NoUpdate.(finalResult := Some(result)));
        SimulateStep(Node.CheckCache, input, w1, u);
        assert Merge(input, u.value) == input.(finalResult := Some(result));
      }
    }

    /**
     * What holds between the nodes of `ainvoke(input)`: the steps so far follow the graph
     * from `input` to `node`, and the vector store is untouched before `search_vectors`.
     */
    ghost predicate OnPath(input: AgentState, node: Node, trace: seq<Node>, states: seq<AgentState>, s: AgentState,
                           log0: Log, log: Log) {
      && (trace == [] ==> node == Node.RouteInput && s == input && states == [])
      && (trace != [] ==>
            && Steps(trace, states) && |trace| == |states| && s == states[|states| - 1]
            && Routable(trace[|trace| - 1], s) && node == Next(trace[|trace| - 1], s))
      && (states != [] ==> states[0] == input)
      && (Node.SearchVectors !in trace ==> log == log0)
      && (node != Node.End && Rank(node) < Rank(Node.SearchVectors) ==> Node.SearchVectors in trace)
    }

    /** One node of `ainvoke` keeps `OnPath`, or ends the run with the steps it took. */
    lemma OnPathStep(input: AgentState, node: Node, trace: seq<Node>, states: seq<AgentState>, s: AgentState,
                     log0: Log, log: Log, update: Result<AgentState>, log': Log)
      requires node != Node.End && OnPath(input, node, trace, states, s, log0, log)
      requires update.Ok? ==> Routable(node, Merge(s, update.value))
      requires node != Node.SearchVectors && node != Node.IngestKnowledge ==> log' == log
      requires node == Node.RouteInput ==> update == Ok(NoUpdate)
      ensures update.Err? ==>
        && Steps(trace + [node], states) && |trace + [node]| == |states| + 1
        && (Node.SearchVectors !in trace + [node] ==> log' == log0)
      ensures update.Ok? ==>
        var t := Merge(s, update.value);
        && Rank(Next(node, t)) < Rank(node)
        && OnPath(input, Next(node, t), trace + [node], states + [t], t, log0, log')
    {
      StepsAdd(trace, states, node);
      assert Node.SearchVectors in trace + [node] <==> Node.SearchVectors in trace || node == Node.SearchVectors;
      if update.Ok? {
        var t := Merge(s, update.value);
        var trace', states' := trace + [node], states + [t];
        StepsRecord(trace', states, t);
        Descends(node, t);
        assert states'[0] == input && states'[|states'| - 1] == t;
        assert trace'[|trace'| - 1] == node;
      }
    }

    /** The vector store's logs. */
    function VectorLog(): Log
      reads vectors
    {
      (vectors.searches, vectors.upserts)
    }

    /**
     * One step of `ainvoke` from `node`: runs the node on the current state and merges its
     * update. The steps taken stay on the graph's path, and the rest of the run is the
     * graph's run from the successor, on the merged state, in the new world; a node that
     * raises ends the run with the graph's error.
     */
    method Advance(input: AgentState, node: Node, trace: seq<Node>, states: seq<AgentState>,
                   ghost before: World, ghost outcome: (Result<AgentState>, World), ghost log0: Log)
      returns (update: Result<AgentState>, next: Node, trace': seq<Node>, states': seq<AgentState>, ghost after: World)
      requires node != Node.End && OnPath(input, node, trace, states, state, log0, VectorLog())
      requires before == Snapshot() && Simulate(node, state, before) == outcome
      modifies this, redisClient, embeddingCache, vectors
      ensures after == Snapshot() && trace' == trace + [node]
      ensures update.Err? ==>
        && states' == states && Steps(trace', states) && |trace'| == |states| + 1
        && (Node.SearchVectors !in trace' ==> VectorLog() == log0)
        && outcome == (Err(update.error), after)
      ensures update.Ok? ==>
        && Rank(next) < Rank(node)
        && OnPath(input, next, trace', states', state, log0, VectorLog())
        && Simulate(next, state, after) == outcome
    {
      ghost var log := VectorLog();
      update := Step(node);
      after := Snapshot();
      SimulateStep(node, state, before, update);
      OnPathStep(input, node, trace, states, state, log0, log, update, VectorLog());
      trace', states', next := trace + [node], states, node;
      if update.Ok? {
        state := Merge(state, update.value);
        states' := states + [state];
        next := Next(node, state);
      }
    }

    /**
     * `workflow.ainvoke(input)`: runs the nodes from `route_input`, merging each update and
     * following the routers, until `END` or until a node raises. Returns the final state,
     * the nodes run and the state after each.
     */
    method Run(input: AgentState) returns (r: Result<AgentState>, trace: seq<Node>, states: seq<AgentState>)
      modifies this, redisClient, embeddingCache, vectors
      ensures states != [] ==> states[0] == input
      ensures r.Ok? ==> Completed(trace, states) && r.value == states[|states| - 1] && state == r.value
      ensures r.Ok? ==>
        var video := Present(input.videoFilePath);
        var c := if video then 2 else 1;
        c < |states| && (CacheExit(states[c]) ==> trace == Path(video, true, false))
      ensures r.Err? ==> Steps(trace, states) && |trace| == |states| + 1
      ensures Node.SearchVectors !in trace ==> vectors.searches == old(vectors.searches) && vectors.upserts == old(vectors.upserts)
      // the run's result and final world are the graph's
      ensures (r, Snapshot()) == Simulate(Node.RouteInput, input, old(Snapshot()))
    {
      ghost var w := Snapshot();
      ghost var outcome := Simulate(Node.RouteInput, input, w);
      ghost var log0 := VectorLog();
      state := input;
      trace, states := [], [];
      var node := Node.RouteInput;
      while node != Node.End
        invariant OnPath(input, node, trace, states, state, log0, VectorLog())
        invariant w == Snapshot() && Simulate(node, state, w) == outcome
        decreases Rank(node)
      {
        var update;
        update, node, trace, states, w := Advance(input, node, trace, states, w, outcome, log0);
        if update.Err? {
          return Err(update.error), trace, states;
        }
      }
      r := Ok(state);
      CompletedRunPath(trace, states);
    }
  }
}
