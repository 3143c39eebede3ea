/**
 * `RagPipeline.kt`: the corpus splitter behind `memorizeChunks`, the
 * retrieval configurations of the text-only and translation paths, the
 * translation and image-aware prompts, the RAG context string, and the
 * fallback and clean-up protocol of `generateResponseWithImage`.
 *
 * The RAG library (semantic memory, retrieval chain, prompt builder) and
 * MediaPipe (`LlmInference`, `LlmInferenceSession`) are foreign: each call to
 * them is recorded as a `Call` in the order it is issued, and what it returns
 * or throws is an input of the model.
 */
module RagPipeline {
  import opened Text
  import opened Outcomes

  // ---------------------------------------------------------------------
  // memorizeChunks: splitting the corpus into chunks
  // ---------------------------------------------------------------------

  const ChunkSeparator: string := "<chunk_splitter>"

  predicate IsSeparatorLine(line: string) {
    StartsWith(line, ChunkSeparator)
  }

  /** What a separator line seeds its chunk with: the rest of the line, trimmed. */
  function Seed(line: string): string {
    Trim(RemovePrefix(line, ChunkSeparator))
  }

  /** The splitter between two lines: the `StringBuilder` and the emitted texts. */
  datatype Splitter = Splitter(pending: string, texts: seq<string>)

  /** One line of input, as the body of the `forEach` handles it. */
  function Step(st: Splitter, line: string): Splitter {
    if IsSeparatorLine(line) then
      Splitter(Seed(line), if st.pending != "" then st.texts + [st.pending] else st.texts)
    else
      Splitter(st.pending + " " + line, st.texts)
  }

  /** The splitter after the given lines. */
  function Scan(lines: seq<string>): Splitter {
    if lines == [] then Splitter("", [])
    else Step(Scan(lines[..|lines| - 1]), lines[|lines| - 1])
  }

  /** End of input: the pending chunk is emitted when it is not empty. */
  function Flush(st: Splitter): seq<string> {
    if st.pending != "" then st.texts + [st.pending] else st.texts
  }

  /** The chunks `memorizeChunks` hands to `memorize`, for a corpus given as lines. */
  function Chunks(lines: seq<string>): seq<string> {
    Flush(Scan(lines))
  }

  /** The text that lines without a separator add to a chunk: a space, then the line. */
  function Joined(body: seq<string>): string {
    if body == [] then "" else Joined(body[..|body| - 1]) + " " + body[|body| - 1]
  }

  predicate NoSeparator(body: seq<string>) {
    forall i :: 0 <= i < |body| ==> !IsSeparatorLine(body[i])
  }

  function NonEmpty(text: string): seq<string> {
    if text != "" then [text] else []
  }

  lemma ScanSnoc(lines: seq<string>, line: string)
    ensures Scan(lines + [line]) == Step(Scan(lines), line)
  {
    assert (lines + [line])[..|lines|] == lines;
  }

  lemma {:induction false} ScanBody(prefix: seq<string>, body: seq<string>)
    requires NoSeparator(body)
    ensures Scan(prefix + body) == Splitter(Scan(prefix).pending + Joined(body), Scan(prefix).texts)
    decreases |body|
  {
    if body == [] {
      assert prefix + body == prefix;
    } else {
      var body', last := body[..|body| - 1], body[|body| - 1];
      assert prefix + body == (prefix + body') + [last];
      assert !IsSeparatorLine(last);
      ScanBody(prefix, body');
      ScanSnoc(prefix + body', last);
      var p := Scan(prefix).pending;
      assert Joined(body) == Joined(body') + " " + last;
      assert p + Joined(body) == (p + Joined(body')) + " " + last;
    }
  }

  /** Lines before the first separator form one chunk, if there are any. */
  lemma ChunksOfPreamble(body: seq<string>)
    requires NoSeparator(body)
    ensures Chunks(body) == NonEmpty(Joined(body))
  {
    ScanBody([], body);
    assert [] + body == body;
    assert "" + Joined(body) == Joined(body);
  }

  /** A separator line and the lines after it up to the next separator add
      exactly one chunk, after the chunks of everything before them, unless
      that chunk would be empty: the seed, then a space and each line. */
  lemma ChunksOfSegment(prefix: seq<string>, separator: string, body: seq<string>)
    requires IsSeparatorLine(separator) && NoSeparator(body)
    ensures Chunks(prefix + [separator] + body)
         == Chunks(prefix) + NonEmpty(Seed(separator) + Joined(body))
  {
    ScanBody(prefix + [separator], body);
    assert (prefix + [separator])[..|prefix|] == prefix;
  }

  lemma {:induction false} ScanTextsNonEmpty(lines: seq<string>)
    ensures forall i :: 0 <= i < |Scan(lines).texts| ==> Scan(lines).texts[i] != ""
  {
    if lines != [] {
      ScanTextsNonEmpty(lines[..|lines| - 1]);
    }
  }

  /** No emitted chunk is empty. */
  lemma ChunksNonEmpty(lines: seq<string>)
    ensures forall i :: 0 <= i < |Chunks(lines)| ==> Chunks(lines)[i] != ""
  {
    ScanTextsNonEmpty(lines);
  }

  /** The loop of `memorizeChunks` over the lines of the asset. */
  method SplitCorpus(lines: seq<string>) returns (texts: seq<string>)
    ensures texts == Chunks(lines)
  {
    var sb := "";
    texts := [];
    for i := 0 to |lines|
      invariant Splitter(sb, texts) == Scan(lines[..i])
    {
      assert lines[..i + 1][..i] == lines[..i];
      var line := lines[i];
      if StartsWith(line, ChunkSeparator) {
        if sb != "" {
          texts := texts + [sb];
        }
        sb := Trim(RemovePrefix(line, ChunkSeparator));
      } else {
        sb := sb + " " + line;
      }
    }
    assert lines[..|lines|] == lines;
    if sb != "" {
      texts := texts + [sb];
    }
  }

  // ---------------------------------------------------------------------
  // Retrieval configurations and prompts
  // ---------------------------------------------------------------------

  datatype TaskType = QuestionAnswering

  datatype RetrievalConfig = RetrievalConfig(topK: int, minSimilarityScore: real, task: TaskType)

  datatype RetrievalRequest = RetrievalRequest(query: string, config: RetrievalConfig)

  /** `generateResponse` and the multimodal path: three results, no score floor. */
  const AnswerConfig: RetrievalConfig := RetrievalConfig(3, 0.0, QuestionAnswering)

  /** `translateDirectly`: zero results, so nothing is retrieved. */
  const TranslationConfig: RetrievalConfig := RetrievalConfig(0, 0.0, QuestionAnswering)

  const TranslationHead: string := "Translate the following text to "
  const TranslationMid: string :=
    ". Provide only the translation without any additional explanation or commentary.\n\nText to translate: \""
  const TranslationTail: string := "\"\n\nTranslation:"

  /** The direct-translation prompt. */
  function BuildTranslationPrompt(text: string, targetLanguage: string): string {
    Splice(TranslationHead, targetLanguage, TranslationMid, text, TranslationTail)
  }

  /** The language and the text can be read back from the translation
      prompt at fixed offsets: the language after "Translate the following
      text to ", the text between the quotes of the "Text to translate"
      line, which is followed by the "Translation:" line. */
  lemma TranslationPromptParts(text: string, targetLanguage: string)
    ensures var p := BuildTranslationPrompt(text, targetLanguage);
      && |p| == |TranslationHead| + |targetLanguage| + |TranslationMid| + |text| + |TranslationTail|
      && p[..|TranslationHead|] == TranslationHead
      && p[|TranslationHead|..|TranslationHead| + |targetLanguage|] == targetLanguage
      && p[|TranslationHead| + |targetLanguage|..|TranslationHead| + |targetLanguage| + |TranslationMid|]
         == TranslationMid
      && p[|TranslationHead| + |targetLanguage| + |TranslationMid|..|p| - |TranslationTail|] == text
      && p[|p| - |TranslationTail|..] == TranslationTail
  {
    SpliceParts(TranslationHead, targetLanguage, TranslationMid, text, TranslationTail);
  }

  /** Two different requests never produce the same translation prompt when
      the languages have the same length (in particular, for one language,
      different texts give different prompts). */
  lemma TranslationPromptInjective(text1: string, text2: string, language1: string, language2: string)
    requires |language1| == |language2|
    requires BuildTranslationPrompt(text1, language1) == BuildTranslationPrompt(text2, language2)
    ensures text1 == text2 && language1 == language2
  {
    TranslationPromptParts(text1, language1);
    TranslationPromptParts(text2, language2);
  }

  /** The prompt template of the chain, with its two slots `{0}` (context) and `{1}` (query). */
  const TemplateHead: string :=
    "You are an assistant for question-answering tasks. Here are the things I want to remember: "
  const TemplateMid: string :=
    " Use the things I want to remember, answer the following question the user has: "

  /** `PromptBuilder(ROMPT_TEMPLATE).buildPrompt(context, query)`, taken as
      literal substitution of the two slots. */
  function RenderTemplate(context: string, query: string): string {
    Splice(TemplateHead, context, TemplateMid, query, "")
  }

  /** The context and the query can be read back from the rendered prompt
      at their offsets, so a prompt determines the context and the query
      once the context's length is known. */
  lemma TemplateParts(context: string, query: string)
    ensures var p := RenderTemplate(context, query);
      && |p| == |TemplateHead| + |context| + |TemplateMid| + |query|
      && p[..|TemplateHead|] == TemplateHead
      && p[|TemplateHead|..|TemplateHead| + |context|] == context
      && p[|TemplateHead| + |context|..|TemplateHead| + |context| + |TemplateMid|] == TemplateMid
      && p[|TemplateHead| + |context| + |TemplateMid|..] == query
  {
    SpliceParts(TemplateHead, context, TemplateMid, query, "");
  }

  const ImageAwareLead: string := "Please analyze the image I've provided and answer this question: "

  /** The prompt sent to the transient multimodal session. */
  function EnhancedPrompt(context: string, prompt: string): string {
    RenderTemplate(context, ImageAwareLead + prompt)
  }

  /** The RAG context of the multimodal path: each retrieved entity's data,
      then a newline, in retrieval order. */
  function RagContext(entities: seq<string>): string {
    if entities == [] then ""
    else RagContext(entities[..|entities| - 1]) + entities[|entities| - 1] + "\n"
  }

  lemma {:induction false} RagContextAppend(a: seq<string>, b: seq<string>)
    ensures RagContext(a + b) == RagContext(a) + RagContext(b)
    decreases |b|
  {
    if b == [] {
      assert a + b == a;
    } else {
      var b' := b[..|b| - 1];
      assert (a + b)[..|a + b| - 1] == a + b';
      RagContextAppend(a, b');
    }
  }

  /** Entity i appears, followed by a newline, right after the context of
      the entities before it and right before the context of those after it. */
  lemma RagContextAt(entities: seq<string>, i: nat)
    requires i < |entities|
    ensures RagContext(entities)
         == RagContext(entities[..i]) + entities[i] + "\n" + RagContext(entities[i + 1..])
  {
    var before, e, after := entities[..i], entities[i], entities[i + 1..];
    var upTo := entities[..i + 1];
    assert entities == upTo + after;
    assert upTo[..|upTo| - 1] == before && upTo[|upTo| - 1] == e;
    assert RagContext(upTo) == RagContext(before) + e + "\n";
    RagContextAppend(upTo, after);
  }

  /** The `buildString { forEach { append(it.data).append("\n") } }` loop. */
  method BuildRagContext(entities: seq<string>) returns (context: string)
    ensures context == RagContext(entities)
  {
    context := "";
    for i := 0 to |entities|
      invariant context == RagContext(entities[..i])
    {
      assert entities[..i + 1][..i] == entities[..i];
      context := context + entities[i] + "\n";
    }
    assert entities[..|entities|] == entities;
  }

  // ---------------------------------------------------------------------
  // generateResponseWithImage: stages, faults and the calls they issue
  // ---------------------------------------------------------------------

  /** The foreign calls the pipeline issues, in order. */
  datatype Call =
    | Record(items: seq<string>)            // semanticMemory.recordBatchedMemoryItems
    | Invoke(request: RetrievalRequest)     // retrievalAndInferenceChain.invoke
    | Retrieve(request: RetrievalRequest)   // semanticMemory.retrieveResults
    | CloseBackend                          // mediaPipeLanguageModel.close()
    | OpenEngine                            // LlmInference.createFromOptions succeeded
    | OpenSession                           // LlmInferenceSession.createFromOptions succeeded
    | AddImage                              // session.addImage
    | AddQuery(text: string)                // session.addQueryChunk
    | Generate                              // session.generateResponseAsync
    | CloseSession                          // session.close()
    | CloseEngine                           // llmInference.close()

  /** The steps of the multimodal path that can fail, in the order they run. */
  datatype Stage =
    | Retrieval | Options | EngineLoad | SessionOptions | SessionCreation
    | RecycledImage | FormatConversion | ImageBuild | ImageInput | QueryInput | Generation

  /** Position of a stage in the order the steps run. */
  function StageIndex(s: Stage): nat {
    match s
    case Retrieval => 0
    case Options => 1
    case EngineLoad => 2
    case SessionOptions => 3
    case SessionCreation => 4
    case RecycledImage => 5
    case FormatConversion => 6
    case ImageBuild => 7
    case ImageInput => 8
    case QueryInput => 9
    case Generation => 10
  }

  /** One past the last stage: the index standing for "no stage failed". */
  const Completed: nat := 11

  /** Everything the foreign side decides in one multimodal request. A stage
      in `faults` throws the given failure (for `RecycledImage`: the bitmap
      is recycled, and the failure value is not used). */
  datatype MultimodalEnv = MultimodalEnv(
    retrieved: seq<string>,     // data of the retrieved entities
    faults: map<Stage, Failure>,
    closeThrows: bool,          // mediaPipeLanguageModel.close() throws
    generated: string,          // the multimodal answer, when generation succeeds
    firstFallback: Reply,       // outcome of the first generateResponse(prompt) call
    secondFallback: Reply,      // outcome of a second one, if it is made
    sessionCloseThrows: bool)   // session.close() throws in the finally block

  /** The stage whose failure ends the `try` block: the first, in the order
      the steps run, that fails. */
  function FailedStage(faults: map<Stage, Failure>): (r: Option<Stage>)
    ensures r.Some? ==> r.value in faults
  {
    if Retrieval in faults then Some(Retrieval)
    else if Options in faults then Some(Options)
    else if EngineLoad in faults then Some(EngineLoad)
    else if SessionOptions in faults then Some(SessionOptions)
    else if SessionCreation in faults then Some(SessionCreation)
    else if RecycledImage in faults then Some(RecycledImage)
    else if FormatConversion in faults then Some(FormatConversion)
    else if ImageBuild in faults then Some(ImageBuild)
    else if ImageInput in faults then Some(ImageInput)
    else if QueryInput in faults then Some(QueryInput)
    else if Generation in faults then Some(Generation)
    else None
  }

  /** The stage reported is the first to fail: every stage running before
      it succeeds, and none is reported only when no stage fails. */
  lemma FailedStageIsFirst(faults: map<Stage, Failure>)
    ensures FailedStage(faults).Some? ==>
              forall s :: StageIndex(s) < StageIndex(FailedStage(faults).value) ==> s !in faults
    ensures FailedStage(faults).None? <==> forall s :: s !in faults
  {
    forall s | FailedStage(faults).None? || StageIndex(s) < StageIndex(FailedStage(faults).value)
      ensures s !in faults
    {
      match s
      case Retrieval =>
      case Options =>
      case EngineLoad =>
      case SessionOptions =>
      case SessionCreation =>
      case RecycledImage =>
      case FormatConversion =>
      case ImageBuild =>
      case ImageInput =>
      case QueryInput =>
      case Generation =>
    }
  }


  /** How far the `try` block got: the index of the failing stage, or `Completed`. */
  function Reached(env: MultimodalEnv): (k: nat)
    ensures k <= Completed
  {
    match FailedStage(env.faults)
    case Some(s) => StageIndex(s)
    case None => Completed
  }

  /** Whether the failure is caught by a handler inside the `try` block
      (whose text-only fallback, if it throws too, reaches the outer handler
      and is attempted a second time) rather than by the outer handler. The
      engine load catches both `OutOfMemoryError` and `Exception`; a recycled
      image returns directly; the other inner handlers catch `Exception` only. */
  function CaughtInside(stage: Stage, failure: Failure): bool {
    match stage
    case Retrieval => false
    case Generation => false
    case EngineLoad => true
    case RecycledImage => true
    case _ => failure.Thrown?
  }

  /** Calls issued by the stages up to index k (the failing one, or
      `Completed`), including the failing stage's own attempt: the
      retrieval; closing the persistent backend once retrieval succeeded;
      the engine and the session once created; adding the image, the
      image-aware text and asking for the answer once the stage doing each
      is reached. */
  function Issued(k: nat, prompt: string, env: MultimodalEnv): seq<Call> {
    var retrieve := Retrieve(RetrievalRequest(prompt, AnswerConfig));
    var query := AddQuery(EnhancedPrompt(RagContext(env.retrieved), prompt));
    if k <= StageIndex(Retrieval) then [retrieve]
    else if k <= StageIndex(EngineLoad) then [retrieve, CloseBackend]
    else if k <= StageIndex(SessionCreation) then [retrieve, CloseBackend, OpenEngine]
    else if k < StageIndex(ImageInput) then [retrieve, CloseBackend, OpenEngine, OpenSession]
    else if k == StageIndex(ImageInput) then [retrieve, CloseBackend, OpenEngine, OpenSession, AddImage]
    else if k == StageIndex(QueryInput) then [retrieve, CloseBackend, OpenEngine, OpenSession, AddImage, query]
    else [retrieve, CloseBackend, OpenEngine, OpenSession, AddImage, query, Generate]
  }

  /** Whether the text-only fallback is made twice after the given stage
      failed: the failure was caught inside and the first fallback threw. */
  function Retried(stage: Stage, env: MultimodalEnv): bool
    requires stage in env.faults
  {
    CaughtInside(stage, env.faults[stage]) && env.firstFallback.Raised?
  }

  /** The text-only fallback calls: none when no stage failed, otherwise
      one with the original prompt, or two when retried. */
  function Fallbacks(prompt: string, env: MultimodalEnv): seq<Call> {
    var call := Invoke(RetrievalRequest(prompt, AnswerConfig));
    match FailedStage(env.faults)
    case None => []
    case Some(s) => if Retried(s, env) then [call, call] else [call]
  }

  /** The `finally` block after stages up to k ran: the session is closed if
      it was created, then the engine if it was created (skipped when closing
      the session throws, since both closes share one `try`). */
  function Cleanup(k: nat, env: MultimodalEnv): seq<Call> {
    (if k > StageIndex(SessionCreation) then [CloseSession] else [])
    + (if k > StageIndex(EngineLoad) && !(k > StageIndex(SessionCreation) && env.sessionCloseThrows)
       then [CloseEngine] else [])
  }

  /** All calls one `generateResponseWithImage(prompt, image)` issues. */
  function MultimodalCalls(prompt: string, env: MultimodalEnv): seq<Call> {
    Issued(Reached(env), prompt, env) + Fallbacks(prompt, env) + Cleanup(Reached(env), env)
  }

  /** What `generateResponseWithImage` returns or throws. */
  function MultimodalReply(env: MultimodalEnv): Reply {
    match FailedStage(env.faults)
    case None => Answer(env.generated)
    case Some(s) => if Retried(s, env) then env.secondFallback else env.firstFallback
  }

  // ---- properties of the protocol ----

  predicate Closing(c: Call) {
    c == CloseSession || c == CloseEngine
  }

  lemma IssuedKinds(k: nat, prompt: string, env: MultimodalEnv)
    ensures forall c :: c in Issued(k, prompt, env) ==> !c.Invoke? && !Closing(c)
  {
  }

  /** Every text-only generation the multimodal path falls back to is asked
      for with the original prompt and the text-only retrieval configuration,
      never the image-aware prompt; there is one exactly when a stage fails. */
  lemma FallbackUsesOriginalPrompt(prompt: string, env: MultimodalEnv)
    ensures forall c :: c in MultimodalCalls(prompt, env) && c.Invoke? ==>
              c.request == RetrievalRequest(prompt, AnswerConfig)
    ensures FailedStage(env.faults).Some?
            <==> Invoke(RetrievalRequest(prompt, AnswerConfig)) in MultimodalCalls(prompt, env)
  {
    IssuedKinds(Reached(env), prompt, env);
  }

  /** A failure at any stage is answered by the text-only path: the reply is
      the first fallback's, or the second's when the first threw after an
      inner handler caught the failure; the multimodal answer is returned
      only when no stage fails. */
  lemma FailureFallsBack(env: MultimodalEnv)
    ensures FailedStage(env.faults).Some? ==>
              MultimodalReply(env) == env.firstFallback || MultimodalReply(env) == env.secondFallback
    ensures FailedStage(env.faults).Some? && env.firstFallback.Answer? ==> MultimodalReply(env) == env.firstFallback
    ensures env.faults == map[] ==> MultimodalReply(env) == Answer(env.generated)
  {
  }

  lemma IssuedQuery(k: nat, prompt: string, env: MultimodalEnv)
    ensures forall i :: 0 <= i < |Issued(k, prompt, env)| && Issued(k, prompt, env)[i].AddQuery? ==>
              i == 5 && Issued(k, prompt, env)[4] == AddImage
              && Issued(k, prompt, env)[i] == AddQuery(EnhancedPrompt(RagContext(env.retrieved), prompt))
  {
  }

  /** The image is added to the session before the text, immediately before
      it, and the text added is the image-aware prompt with the RAG context. */
  lemma ImageBeforeQuery(prompt: string, env: MultimodalEnv)
    ensures forall i :: 0 <= i < |MultimodalCalls(prompt, env)| && MultimodalCalls(prompt, env)[i].AddQuery? ==>
              0 < i && MultimodalCalls(prompt, env)[i - 1] == AddImage
              && MultimodalCalls(prompt, env)[i].text == EnhancedPrompt(RagContext(env.retrieved), prompt)
  {
    var k := Reached(env);
    var calls := MultimodalCalls(prompt, env);
    var issued := Issued(k, prompt, env);
    var rest := Fallbacks(prompt, env) + Cleanup(k, env);
    assert calls == issued + rest;
    IssuedQuery(k, prompt, env);
    forall i | |issued| <= i < |calls| ensures !calls[i].AddQuery? {
      assert calls[i] in rest;
    }
  }

  /** The transient engine and session are opened by the stages after the
      ones that create them. */
  lemma IssuedOpens(k: nat, prompt: string, env: MultimodalEnv)
    ensures OpenEngine in Issued(k, prompt, env) <==> k > StageIndex(EngineLoad)
    ensures OpenSession in Issued(k, prompt, env) <==> k > StageIndex(SessionCreation)
  {
  }

  /** The transient session and engine are released on every exit: a
      created session is always closed, a created engine is closed (last of
      all) unless closing the session threw, and nothing is closed that was
      not created. */
  lemma TransientsReleased(prompt: string, env: MultimodalEnv)
    ensures OpenSession in MultimodalCalls(prompt, env) <==> CloseSession in MultimodalCalls(prompt, env)
    ensures CloseEngine in MultimodalCalls(prompt, env) ==> OpenEngine in MultimodalCalls(prompt, env)
    ensures OpenEngine in MultimodalCalls(prompt, env) && !env.sessionCloseThrows ==>
              MultimodalCalls(prompt, env)[|MultimodalCalls(prompt, env)| - 1] == CloseEngine
  {
    var k := Reached(env);
    var issued, fallbacks, cleanup := Issued(k, prompt, env), Fallbacks(prompt, env), Cleanup(k, env);
    assert MultimodalCalls(prompt, env) == issued + fallbacks + cleanup;
    IssuedKinds(k, prompt, env);
    IssuedOpens(k, prompt, env);
    assert forall c :: c in fallbacks ==> c.Invoke?;
    assert OpenSession !in cleanup && OpenEngine !in cleanup;
    assert CloseSession in cleanup <==> k > StageIndex(SessionCreation);
    assert CloseEngine in cleanup ==> k > StageIndex(EngineLoad);
    if k > StageIndex(EngineLoad) && !env.sessionCloseThrows {
      assert cleanup != [] && cleanup[|cleanup| - 1] == CloseEngine;
    }
  }

  /** When a stage fails, the text-only fallback runs before the finally
      block closes anything: every fallback call comes before every closing
      call, so a failure after the transient engine is loaded falls back
      while that engine is still loaded. */
  lemma FallbackBeforeCleanup(prompt: string, env: MultimodalEnv)
    ensures forall i, j :: 0 <= i < |MultimodalCalls(prompt, env)| && 0 <= j < |MultimodalCalls(prompt, env)|
              && MultimodalCalls(prompt, env)[i].Invoke? && Closing(MultimodalCalls(prompt, env)[j])
              ==> i < j
  {
    var k := Reached(env);
    var calls := MultimodalCalls(prompt, env);
    var issued := Issued(k, prompt, env);
    var fallbacks := Fallbacks(prompt, env);
    var cleanup := Cleanup(k, env);
    IssuedKinds(k, prompt, env);
    assert calls == issued + fallbacks + cleanup;
    forall i | 0 <= i < |issued| ensures !calls[i].Invoke? && !Closing(calls[i]) {
      assert calls[i] in issued;
    }
    forall j | |issued| <= j < |issued| + |fallbacks| ensures !Closing(calls[j]) {
      assert calls[j] in fallbacks;
    }
    forall i | |issued| + |fallbacks| <= i < |calls| ensures !calls[i].Invoke? {
      assert calls[i] in cleanup;
    }
  }

  // ---------------------------------------------------------------------
  // The pipeline object
  // ---------------------------------------------------------------------

  /** The state of one `RagPipeline`: whether its persistent MediaPipe
      backend is open, and the foreign calls it has issued so far. */
  class RagPipeline {
    var backendOpen: bool
    var calls: seq<Call>

    constructor ()
      ensures backendOpen && calls == []
    {
      backendOpen := true;
      calls := [];
    }

    /** `memorizeChunks`: split the corpus and record the chunks in the
        semantic memory, only when there is at least one. */
    method MemorizeChunks(lines: seq<string>)
      modifies this
      ensures calls == old(calls) + (if Chunks(lines) != [] then [Record(Chunks(lines))] else [])
      ensures backendOpen == old(backendOpen)
    {
      var texts := SplitCorpus(lines);
      if texts != [] {
        calls := calls + [Record(texts)];
      }
    }

    /** `generateResponse`: one chain invocation with three results and no
        score floor; whatever the chain gives or throws is passed on. */
    method GenerateResponse(prompt: string, outcome: Reply) returns (reply: Reply)
      modifies this
      ensures calls == old(calls) + [Invoke(RetrievalRequest(prompt, AnswerConfig))]
      ensures reply == outcome
      ensures backendOpen == old(backendOpen)
    {
      calls := calls + [Invoke(RetrievalRequest(prompt, AnswerConfig))];
      reply := outcome;
    }

    /** `translateDirectly`: the direct-translation prompt, retrieved with
        zero results; an `Exception` becomes the "Translation failed: "
        text, an `OutOfMemoryError` still propagates. */
    method TranslateDirectly(text: string, targetLanguage: string, outcome: Reply) returns (reply: Reply)
      modifies this
      ensures calls == old(calls)
                       + [Invoke(RetrievalRequest(BuildTranslationPrompt(text, targetLanguage), TranslationConfig))]
      ensures outcome.Answer? ==> reply == outcome
      ensures outcome.Raised? && outcome.failure.Thrown? ==>
                reply == Answer(TranslationFailedText(outcome.failure.message))
      ensures outcome == Raised(OutOfMemory) ==> reply == outcome
      ensures backendOpen == old(backendOpen)
    {
      var translationPrompt := BuildTranslationPrompt(text, targetLanguage);
      calls := calls + [Invoke(RetrievalRequest(translationPrompt, TranslationConfig))];
      match outcome {
        case Answer(_) => reply := outcome;
        case Raised(OutOfMemory) => reply := outcome;
        case Raised(Thrown(message)) => reply := Answer(TranslationFailedText(message));
      }
    }

    /** The text-only fallback after the failing stage: `generateResponse`
        with the original prompt, attempted again by the outer handler when
        an inner handler's call threw. */
    method Fallback(prompt: string, env: MultimodalEnv, stage: Stage) returns (reply: Reply)
      requires FailedStage(env.faults) == Some(stage)
      modifies this
      ensures calls == old(calls) + Fallbacks(prompt, env)
      ensures reply == MultimodalReply(env)
      ensures backendOpen == old(backendOpen)
    {
      reply := GenerateResponse(prompt, env.firstFallback);
      if CaughtInside(stage, env.faults[stage]) && reply.Raised? {
        reply := GenerateResponse(prompt, env.secondFallback);
      }
    }

    /** Step 3 of the `try` block: the engine options, the engine, the
        session options and the session. Reports the stage that failed, if
        one did; `start` is the trace when the request began. */
    method OpenTransients(prompt: string, env: MultimodalEnv, ghost start: seq<Call>) returns (failed: Option<Stage>)
      requires Retrieval !in env.faults
      requires calls == start + Issued(StageIndex(Options), prompt, env)
      modifies this
      ensures failed.Some? ==> failed == FailedStage(env.faults)
                               && calls == start + Issued(StageIndex(failed.value), prompt, env)
      ensures failed.None? ==> Options !in env.faults && EngineLoad !in env.faults
                               && SessionOptions !in env.faults && SessionCreation !in env.faults
                               && calls == start + Issued(StageIndex(RecycledImage), prompt, env)
      ensures backendOpen == old(backendOpen)
    {
      var faults := env.faults;
      failed := None;
      if Options in faults {
        failed := Some(Options);
      } else if EngineLoad in faults {
        failed := Some(EngineLoad);
      } else {
        calls := calls + [OpenEngine];
        if SessionOptions in faults {
          failed := Some(SessionOptions);
        } else if SessionCreation in faults {
          failed := Some(SessionCreation);
        } else {
          calls := calls + [OpenSession];
        }
      }
    }

    /** Step 4 of the `try` block: the image-aware prompt, the bitmap check,
        its conversion, the image object, then adding the image and the
        image-aware text to the session. Reports the stage that failed, if
        one did. */
    method AddInputs(prompt: string, env: MultimodalEnv, ragContext: string, ghost start: seq<Call>)
      returns (failed: Option<Stage>)
      requires ragContext == RagContext(env.retrieved)
      requires Retrieval !in env.faults && Options !in env.faults && EngineLoad !in env.faults
      requires SessionOptions !in env.faults && SessionCreation !in env.faults
      requires calls == start + Issued(StageIndex(RecycledImage), prompt, env)
      modifies this
      ensures failed.Some? ==> failed == FailedStage(env.faults)
                               && calls == start + Issued(StageIndex(failed.value), prompt, env)
      ensures failed.None? ==> RecycledImage !in env.faults && FormatConversion !in env.faults
                               && ImageBuild !in env.faults && ImageInput !in env.faults
                               && QueryInput !in env.faults
                               && calls == start + Issued(StageIndex(QueryInput), prompt, env)
      ensures backendOpen == old(backendOpen)
    {
      var faults := env.faults;
      var enhancedPrompt := RenderTemplate(ragContext, ImageAwareLead + prompt);
      failed := None;
      if RecycledImage in faults {
        failed := Some(RecycledImage);
      } else if FormatConversion in faults {
        failed := Some(FormatConversion);
      } else if ImageBuild in faults {
        failed := Some(ImageBuild);
      } else {
        calls := calls + [AddImage];
        if ImageInput in faults {
          failed := Some(ImageInput);
        } else {
          calls := calls + [AddQuery(enhancedPrompt)];
          if QueryInput in faults {
            failed := Some(QueryInput);
          }
        }
      }
    }

    /** Steps 1 and 2 of the `try` block: retrieval of the RAG context,
        then closing the persistent backend, whose failure is only logged.
        Reports whether the retrieval failed. */
    method RetrieveAndRelease(prompt: string, env: MultimodalEnv) returns (failed: Option<Stage>, ragContext: string)
      modifies this
      ensures failed.Some? ==> failed == FailedStage(env.faults) == Some(Retrieval)
                               && calls == old(calls) + Issued(StageIndex(Retrieval), prompt, env)
                               && backendOpen == old(backendOpen)
      ensures failed.None? ==> Retrieval !in env.faults && ragContext == RagContext(env.retrieved)
                               && calls == old(calls) + Issued(StageIndex(Options), prompt, env)
                               && backendOpen == (old(backendOpen) && env.closeThrows)
    {
      calls := calls + [Retrieve(RetrievalRequest(prompt, AnswerConfig))];
      if Retrieval in env.faults {
        failed := Some(Retrieval);
        ragContext := "";
        return;
      }
      failed := None;
      ragContext := BuildRagContext(env.retrieved);
      calls := calls + [CloseBackend];
      if !env.closeThrows {
        backendOpen := false;
      }
    }

    /** Step 5 of the `try` block: the asynchronous generation, awaited. */
    method AwaitGeneration(prompt: string, env: MultimodalEnv, ghost start: seq<Call>) returns (failed: Option<Stage>)
      requires Retrieval !in env.faults && Options !in env.faults && EngineLoad !in env.faults
      requires SessionOptions !in env.faults && SessionCreation !in env.faults
      requires RecycledImage !in env.faults && FormatConversion !in env.faults
      requires ImageBuild !in env.faults && ImageInput !in env.faults && QueryInput !in env.faults
      requires calls == start + Issued(StageIndex(QueryInput), prompt, env)
      modifies this
      ensures failed == FailedStage(env.faults)
      ensures calls == start + Issued(if failed.Some? then StageIndex(failed.value) else Completed, prompt, env)
      ensures backendOpen == old(backendOpen)
    {
      calls := calls + [Generate];
      failed := if Generation in env.faults then Some(Generation) else None;
    }

    /** The body of the `try` block of `generateResponseWithImage`, up to
        the first failing stage. Reports how far it got, which tells
        whether the engine and the session exist. */
    method MultimodalAttempt(prompt: string, env: MultimodalEnv) returns (reply: Reply, k: nat)
      modifies this
      ensures k == Reached(env)
      ensures reply == MultimodalReply(env)
      ensures calls == old(calls) + Issued(k, prompt, env) + Fallbacks(prompt, env)
      ensures backendOpen == (old(backendOpen) && (k == 0 || env.closeThrows))
    {
      ghost var start := calls;
      var failed, ragContext := RetrieveAndRelease(prompt, env);
      if failed.None? {
        failed := OpenTransients(prompt, env, start);
        if failed.None? {
          failed := AddInputs(prompt, env, ragContext, start);
          if failed.None? {
            failed := AwaitGeneration(prompt, env, start);
          }
        }
      }
      k := if failed.Some? then StageIndex(failed.value) else Completed;
      if failed.Some? {
        reply := Fallback(prompt, env, failed.value);
      } else {
        assert calls == start + Issued(k, prompt, env) + [];
        reply := Answer(env.generated);
      }
    }

    /** `generateResponseWithImage`: the `try` block, then the `finally`
        block that closes the transient session and engine. The persistent
        backend closed by the attempt is not reopened. */
    method GenerateResponseWithImage(prompt: string, env: MultimodalEnv) returns (reply: Reply)
      modifies this
      ensures calls == old(calls) + MultimodalCalls(prompt, env)
      ensures reply == MultimodalReply(env)
      ensures backendOpen == (old(backendOpen) && (Reached(env) == 0 || env.closeThrows))
    {
      var k;
      reply, k := MultimodalAttempt(prompt, env);
      var sessionCreated := k > StageIndex(SessionCreation);
      var engineCreated := k > StageIndex(EngineLoad);
      var sessionCloseFailed := false;
      if sessionCreated {
        calls := calls + [CloseSession];
        sessionCloseFailed := env.sessionCloseThrows;
      }
      if engineCreated && !sessionCloseFailed {
        calls := calls + [CloseEngine];
      }
    }
  }
}
