# Field-Comm core, modelled in Dafny

Field-Comm is an offline Android assistant. It answers chat questions with
retrieval-augmented generation (RAG) over a local corpus, translates text with
the same on-device language model, and transcribes speech with a Whisper
model running under TensorFlow Lite. This project models the app's core
logic and proves properties of it. It has one module per source file, plus
shared modules for bytes and text.

- `RagPipeline` (rag_pipeline.dfy) covers `RagPipeline.kt`:
  - the corpus splitter of `memorizeChunks` and the chunks it records;
  - the retrieval configurations of the text-only and translation paths;
  - the translation prompt and the prompt template;
  - the RAG context string;
  - the protocol of `generateResponseWithImage`. This is the retrieval, the closing of the persistent backend, the transient engine and session, the image and query inputs, the text-only fallback after any failing stage, and the `finally` clean-up. The pipeline is a class whose state is whether the backend is open and the trace of foreign calls it has issued.
- `Chat` (chat.dfy) covers `ChatViewMode.kt`:
  - the chat thread;
  - the placeholder shown while the model answers;
  - `updateLastMessage`;
  - the streaming callback that accumulates deltas;
  - the text-only and multimodal request paths.
- `Translation` (translation.dfy) covers `TranslationViewModel.kt`: the four screen fields, the guards of `translateText`, the progress callbacks (each one replaces the text shown), the failure text, `setSelectedLanguage` and `clearTranslation`.
- `Embedder` (embedder.dfy) covers `CustomMultilingualEmbedder.kt`:
  - the 128-id model input: [CLS], clamped ids, [SEP], padding;
  - the allocation of output buffers by shape, with Kotlin `Int` overflow in the flat case;
  - the two scans that choose the 512-value embedding;
  - the zero-vector fallbacks;
  - the single and batched entry points.
- `Whisper` (whisper.dfy) covers `TFLiteEngine.cpp`:
  - the vocabulary blob: the "WSPR" magic, the mel-filter header and the length-prefixed words, read as a little-endian `int` each;
  - the labels generated for the ids the blob does not cover;
  - the multilingual shift of the special ids;
  - the initialised flag and `freeModel`;
  - the decoding loop of `transcribeBuffer`;
  - the 30-second chunking of `transcribeFile`.
- `Wave` (wave.dfy) covers `WaveUtil.kt`: `parseWavFile` over the chunks of a RIFF/WAVE file, with Kotlin `Int` position arithmetic, buffer underflow and illegal positions as faults, and the catch of `getSamples`.
- `AppScreen` (app_screen.dfy) covers `AppScreen.kt`:
  - the recording time text of `StatusIndicators`, with Kotlin's truncating `Long` division;
  - the status line chosen by priority;
  - the enabled state of the send button;
  - the `onSendClick` handler of the composer.
- Shared modules:
  - `Bytes` (bytes.dfy): little-endian two's-complement integers, as read by `memcpy` and `ByteBuffer`, and 32-bit wrap-around.
  - `Text` (text.dfy): Kotlin whitespace, `trim`, `isBlank`, `removePrefix`, line-break normalisation and decimal rendering.
  - `Outcomes` (outcomes.dfy): what a foreign call returns or throws.
  - `Streaming` (streaming.dfy): the delta and cumulative conventions of streamed output.

Foreign code is not modelled. This covers the MediaPipe LLM and RAG library, the WordPiece tokenizer, the TensorFlow Lite interpreter, the mel spectrogram, the content resolver and the file system. What such code returns, or whether it throws, is a parameter: an `Outcomes.Reply`, a `RagPipeline.MultimodalEnv`, an interpreter function, or a flag such as `modelFileOpens`.

## Model

Source paths are relative to the repository root.

| member | source | states |
|---|---|---|
| Bytes.WrapInt32 | app/src/main/java/com/google/ai/edge/samples/rag/WaveUtil.kt:120-122 | Kotlin `Int` arithmetic: the result is a 32-bit value congruent to the exact one modulo 2^32, equal to it when it fits, and 2^32 lower just above the range |
| Bytes.Signed | app/cpp/TFLiteEngine.cpp:44-46 | two's-complement reading of an unsigned value: it lies in the signed range of its width and is non-negative exactly when the unsigned value is below half the range |
| Bytes.Unsigned | app/cpp/TFLiteEngine.cpp:44-46 | the unsigned bytes value that reads back as a given signed value (the inverse of `Signed`) |
| Bytes.Int32At | app/cpp/TFLiteEngine.cpp:44-46 | the `int` copied out of the blob by `memcpy` on a little-endian target is a 32-bit value |
| Bytes.Int16At | app/src/main/java/com/google/ai/edge/samples/rag/WaveUtil.kt:136 | `ByteBuffer.getShort` in little-endian order is a 16-bit value |
| Bytes.LittleEndianRoundTrip | app/src/main/java/com/google/ai/edge/samples/rag/WaveUtil.kt:69 | bytes written least significant first read back as the value written, wherever they sit |
| Bytes.Int32AtBytes | app/cpp/TFLiteEngine.cpp:44-46 | a stored 32-bit integer is read back unchanged at any position |
| Bytes.Int16AtBytes | app/src/main/java/com/google/ai/edge/samples/rag/WaveUtil.kt:136 | a stored 16-bit integer is read back unchanged at any position |
| Bytes.ValueAtSame | app/src/main/java/com/google/ai/edge/samples/rag/WaveUtil.kt:101 | an integer read at a position depends only on the bytes it spans |
| Bytes.Chars | app/cpp/TFLiteEngine.cpp:80 | `std::string(data, len)` has one character per byte, each the byte's code |
| Text.Trim | app/src/main/java/com/google/ai/edge/samples/rag/RagPipeline.kt:115 | `trim` never lengthens the text |
| Text.TrimIsMiddle | app/src/main/java/com/google/ai/edge/samples/rag/RagPipeline.kt:115 | the trimmed text is the part right after the leading whitespace, with only whitespace before and after it |
| Text.TrimEnds | app/src/main/java/com/google/ai/edge/samples/rag/RagPipeline.kt:115 | the trimmed text neither starts nor ends with whitespace, and it is empty exactly when the text is blank |
| Text.RemovePrefix | app/src/main/java/com/google/ai/edge/samples/rag/RagPipeline.kt:115 | `removePrefix`: when the text starts with the prefix, the prefix followed by the result is the text; otherwise the text is returned unchanged |
| Text.NormalizeBreaks | app/src/main/java/com/google/ai/edge/samples/rag/TranslationViewModel.kt:110-118 | the line breaks after `trimIndent` hold no carriage return, and a text without one is kept as it is |
| Text.NatToDecimal | app/cpp/TFLiteEngine.cpp:101 | `std::to_string` of a non-negative number is a non-empty run of digits without a leading zero |
| Text.DecimalRoundTrip | app/cpp/TFLiteEngine.cpp:113 | reading back the rendered digits gives the number |
| Text.TwoDigitsRoundTrip | app/src/main/java/com/google/ai/edge/samples/rag/AppScreen.kt:376 | `%02d` of a number below 100 has exactly two digits and keeps the value |
| Outcomes.TranslationFailedText | app/src/main/java/com/google/ai/edge/samples/rag/RagPipeline.kt:171-174 | the failure text starts with "Translation failed: " followed by the exception's message |
| Streaming.ConventionsAgree | app/src/main/java/com/google/ai/edge/samples/rag/ChatViewMode.kt:63-65 | appending deltas and replacing with cumulative texts end on the same text when each screen gets the convention it expects |
| Streaming.ConventionsDisagree | app/src/main/java/com/google/ai/edge/samples/rag/TranslationViewModel.kt:85-95 | fed the other convention, the two readings differ once there are two increments and the first is not empty |
| Streaming.DeltasOnlyGrow | app/src/main/java/com/google/ai/edge/samples/rag/ChatViewMode.kt:63-65 | with accumulated deltas, the text after i increments is a prefix of the text after any later count |
| RagPipeline.ScanBody | app/src/main/java/com/google/ai/edge/samples/rag/RagPipeline.kt:107-120 | lines without a separator only extend the pending chunk, by a space and the line each, and emit nothing |
| RagPipeline.ChunksOfPreamble | app/src/main/java/com/google/ai/edge/samples/rag/RagPipeline.kt:107-123 | lines before the first separator form a single chunk, or none when they add nothing |
| RagPipeline.ChunksOfSegment | app/src/main/java/com/google/ai/edge/samples/rag/RagPipeline.kt:107-123 | a separator line and the lines up to the next separator add exactly one chunk after the earlier ones: the trimmed rest of the separator line, then a space and each line; no chunk is added when that text is empty |
| RagPipeline.ScanTextsNonEmpty | app/src/main/java/com/google/ai/edge/samples/rag/RagPipeline.kt:109-114 | no chunk emitted inside the loop is empty |
| RagPipeline.ChunksNonEmpty | app/src/main/java/com/google/ai/edge/samples/rag/RagPipeline.kt:109-123 | no chunk handed to the semantic memory is empty |
| RagPipeline.SplitCorpus | app/src/main/java/com/google/ai/edge/samples/rag/RagPipeline.kt:105-123 | the `StringBuilder` loop and the final flush produce exactly the chunks of the lines |
| RagPipeline.TranslationPromptParts | app/src/main/java/com/google/ai/edge/samples/rag/RagPipeline.kt:180-186 | the language and the text sit at fixed offsets of the direct-translation prompt, between its fixed pieces |
| RagPipeline.TranslationPromptInjective | app/src/main/java/com/google/ai/edge/samples/rag/RagPipeline.kt:180-186 | for languages of equal length, equal prompts mean equal texts and equal languages |
| RagPipeline.TemplateParts | app/src/main/java/com/google/ai/edge/samples/rag/RagPipeline.kt:490-491 | the context fills slot {0} and the query fills slot {1} of the template; both can be read back at their offsets |
| RagPipeline.RagContextAppend | app/src/main/java/com/google/ai/edge/samples/rag/RagPipeline.kt:299-303 | the context of two runs of retrieved entities is the two contexts joined |
| RagPipeline.RagContextAt | app/src/main/java/com/google/ai/edge/samples/rag/RagPipeline.kt:299-303 | each retrieved entity appears, followed by a newline, between the contexts of the entities before and after it |
| RagPipeline.BuildRagContext | app/src/main/java/com/google/ai/edge/samples/rag/RagPipeline.kt:299-303 | the `buildString` loop builds the RAG context of the entities in retrieval order |
| RagPipeline.FailedStage | app/src/main/java/com/google/ai/edge/samples/rag/RagPipeline.kt:290-448 | the stage reported as failed is one that fails |
| RagPipeline.FailedStageIsFirst | app/src/main/java/com/google/ai/edge/samples/rag/RagPipeline.kt:290-448 | the reported stage is the first failing one in execution order, and none is reported exactly when nothing fails |
| RagPipeline.Reached | app/src/main/java/com/google/ai/edge/samples/rag/RagPipeline.kt:290-448 | the `try` block gets at most past its last stage |
| RagPipeline.IssuedKinds | app/src/main/java/com/google/ai/edge/samples/rag/RagPipeline.kt:290-448 | the `try` block's own calls include neither a text-only generation nor a close of the transient session or engine |
| RagPipeline.IssuedOpens | app/src/main/java/com/google/ai/edge/samples/rag/RagPipeline.kt:337-380 | the transient engine is opened exactly when the run got past the engine load, and the session exactly when it got past session creation |
| RagPipeline.FallbackUsesOriginalPrompt | app/src/main/java/com/google/ai/edge/samples/rag/RagPipeline.kt:334-457 | every text-only fallback uses the user's original prompt and the text-only retrieval configuration, never the image-aware prompt; a fallback happens exactly when some stage fails |
| RagPipeline.FailureFallsBack | app/src/main/java/com/google/ai/edge/samples/rag/RagPipeline.kt:334-457 | after a failure the reply is a fallback's reply, and the first one's when it answers; with no failure the reply is the multimodal answer |
| RagPipeline.IssuedQuery | app/src/main/java/com/google/ai/edge/samples/rag/RagPipeline.kt:419-435 | the only query added to the session is the sixth call, right after the image, and it is the image-aware prompt with the RAG context |
| RagPipeline.ImageBeforeQuery | app/src/main/java/com/google/ai/edge/samples/rag/RagPipeline.kt:419-435 | in the whole trace, the query added to the session comes immediately after the image and carries the RAG context |
| RagPipeline.TransientsReleased | app/src/main/java/com/google/ai/edge/samples/rag/RagPipeline.kt:458-474 | a session is closed exactly when it was opened; an engine is closed only when it was opened; an opened engine is the last thing closed unless closing the session threw |
| RagPipeline.FallbackBeforeCleanup | app/src/main/java/com/google/ai/edge/samples/rag/RagPipeline.kt:450-474 | every fallback generation comes before every close of the `finally` block |
| RagPipeline.RagPipeline.constructor | app/src/main/java/com/google/ai/edge/samples/rag/RagPipeline.kt:53-98 | a new pipeline has its backend open and has issued no calls |
| RagPipeline.RagPipeline.MemorizeChunks | app/src/main/java/com/google/ai/edge/samples/rag/RagPipeline.kt:100-128 | the chunks of the corpus are recorded in one batch, only when there is at least one |
| RagPipeline.RagPipeline.GenerateResponse | app/src/main/java/com/google/ai/edge/samples/rag/RagPipeline.kt:138-145 | one chain invocation with three results and no score floor; its outcome is passed on unchanged |
| RagPipeline.RagPipeline.TranslateDirectly | app/src/main/java/com/google/ai/edge/samples/rag/RagPipeline.kt:151-175 | one invocation with the translation prompt and zero results; an `Exception` becomes the failure text, while an answer or an `OutOfMemoryError` passes through |
| RagPipeline.RagPipeline.Fallback | app/src/main/java/com/google/ai/edge/samples/rag/RagPipeline.kt:334-457 | the text-only fallback issues one call, or two when an inner handler's call threw, and returns the path's reply |
| RagPipeline.RagPipeline.RetrieveAndRelease | app/src/main/java/com/google/ai/edge/samples/rag/RagPipeline.kt:290-320 | the retrieval runs first; when it succeeds, the RAG context is built and the backend is closed, and it stays open only when `close` throws |
| RagPipeline.RagPipeline.OpenTransients | app/src/main/java/com/google/ai/edge/samples/rag/RagPipeline.kt:325-380 | the engine and the session are opened in order up to the first failing stage, which is reported |
| RagPipeline.RagPipeline.AddInputs | app/src/main/java/com/google/ai/edge/samples/rag/RagPipeline.kt:382-435 | the image checks run, then the image and the image-aware text are added, up to the first failing stage, which is reported |
| RagPipeline.RagPipeline.AwaitGeneration | app/src/main/java/com/google/ai/edge/samples/rag/RagPipeline.kt:437-448 | the generation is requested, and a failure there is reported |
| RagPipeline.RagPipeline.MultimodalAttempt | app/src/main/java/com/google/ai/edge/samples/rag/RagPipeline.kt:290-457 | the `try` block and its handlers issue the stage calls up to the failing stage, then the fallbacks, and return the path's reply |
| RagPipeline.RagPipeline.GenerateResponseWithImage | app/src/main/java/com/google/ai/edge/samples/rag/RagPipeline.kt:278-475 | the whole call trace is the stage calls, the fallbacks and the `finally` closes, in that order; the reply is the path's reply; the backend is closed once the retrieval succeeds, unless its `close` threw |
| Chat.UpdatedLast | app/src/main/java/com/google/ai/edge/samples/rag/ChatViewMode.kt:112-119 | a last message with the given owner gets the new text and keeps its images; otherwise a message is appended; everything before the last message stays as it was |
| Chat.UpdatedLastTwice | app/src/main/java/com/google/ai/edge/samples/rag/ChatViewMode.kt:112-119 | two updates for the same owner are one update with the later text |
| Chat.ExchangeAppendsTwo | app/src/main/java/com/google/ai/edge/samples/rag/ChatViewMode.kt:35-96 | one exchange adds exactly the user's message with its images and the model's message, which holds all the streamed text, the placeholder, or the image failure text |
| Chat.ImageFailureHiddenAsWritten | app/src/main/java/com/google/ai/edge/samples/rag/ChatViewMode.kt:74-76 | as written, a request whose image cannot be decoded leaves the placeholder in the thread and never shows the failure text |
| Chat.StreamStep | app/src/main/java/com/google/ai/edge/samples/rag/ChatViewMode.kt:63-72 | one more delta extends the accumulated text by itself, and the model's message shows the new accumulated text |
| Chat.ChatViewModel.constructor | app/src/main/java/com/google/ai/edge/samples/rag/ChatViewMode.kt:19-27 | a new chat screen has an empty thread and nothing accumulated |
| Chat.ChatViewModel.AppendMessage | app/src/main/java/com/google/ai/edge/samples/rag/ChatViewMode.kt:104-110 | the thread gains exactly the new message at its end |
| Chat.ChatViewModel.UpdateLastMessage | app/src/main/java/com/google/ai/edge/samples/rag/ChatViewMode.kt:112-119 | the thread becomes `UpdatedLast` of the old thread |
| Chat.ChatViewModel.RequestResponse | app/src/main/java/com/google/ai/edge/samples/rag/ChatViewMode.kt:35-48 | the user's message and the placeholder are appended, and the accumulated text is reset |
| Chat.ChatViewModel.OnResponse | app/src/main/java/com/google/ai/edge/samples/rag/ChatViewMode.kt:61-73 | the delta is appended to the accumulated text, and the model's message shows the whole accumulated text |
| Chat.ChatViewModel.Stream | app/src/main/java/com/google/ai/edge/samples/rag/ChatViewMode.kt:79-91 | after all deltas, the accumulated text has grown by their concatenation and the thread shows it |
| Chat.ChatViewModel.Generate | app/src/main/java/com/google/ai/edge/samples/rag/ChatViewMode.kt:53-92 | with an image, the multimodal path's calls, reply and release of the backend; without one, one text-only invocation whose outcome is returned, with the backend untouched; either way the deltas are streamed onto the thread and accumulated |
| Chat.ChatViewModel.RequestResponseFromModelAsWritten | app/src/main/java/com/google/ai/edge/samples/rag/ChatViewMode.kt:50-96 | as written: when `openInputStream` throws, the exception escapes and nothing else happens; an undecodable image asks nothing of the pipeline and leaves the thread and the accumulated text as they were; otherwise the pipeline's calls are issued, the deltas are streamed, and a thrown reply escapes the coroutine |
| Chat.ChatViewModel.RequestResponseFromModel | app/src/main/java/com/google/ai/edge/samples/rag/ChatViewMode.kt:50-96 | when `openInputStream` throws, the exception escapes and nothing else happens; an undecodable image asks nothing of the pipeline and shows "Failed to load image."; otherwise the multimodal or text-only calls are issued, the backend is released as that path says, the deltas are streamed and accumulated, and a thrown reply escapes the coroutine |
| Translation.PromptPieces | app/src/main/java/com/google/ai/edge/samples/rag/TranslationViewModel.kt:110-119 | the prompt's first line ends right after the language, the text sits between double quotes, and the last line is "Translation:" |
| Translation.TranslationPromptParts | app/src/main/java/com/google/ai/edge/samples/rag/TranslationViewModel.kt:110-119 | a language and a text without carriage returns appear verbatim at their offsets of the prompt |
| Translation.StreamedShowsLatest | app/src/main/java/com/google/ai/edge/samples/rag/TranslationViewModel.kt:85-95 | the callbacks show the latest text, keep the screen translating until one is done, and touch nothing else |
| Translation.TranslateOutcome | app/src/main/java/com/google/ai/edge/samples/rag/TranslationViewModel.kt:72-103 | a started translation ends showing the failure text after an `Exception`, otherwise the latest progress; it is still translating exactly when nothing was done or thrown; the text and the language are kept |
| Translation.CumulativeProgressShowsWhole | app/src/main/java/com/google/ai/edge/samples/rag/TranslationViewModel.kt:85-95 | a backend sending cumulative texts, the last one done, leaves the whole translation shown and the screen idle |
| Translation.SetLanguageKeepsChoice | app/src/main/java/com/google/ai/edge/samples/rag/TranslationViewModel.kt:49-56 | the chosen language is stored whatever happens, the stored text is kept, and a blank text or a running translation changes nothing else |
| Translation.ClearedUnblocks | app/src/main/java/com/google/ai/edge/samples/rag/TranslationViewModel.kt:124-128 | after clearing, a non-blank text is never refused, the language is kept, and choosing a language translates nothing |
| Translation.TranslationViewModel.constructor | app/src/main/java/com/google/ai/edge/samples/rag/TranslationViewModel.kt:18-33 | the screen starts empty, idle and set to English |
| Translation.TranslationViewModel.SetOriginalText | app/src/main/java/com/google/ai/edge/samples/rag/TranslationViewModel.kt:42-44 | only the stored text changes |
| Translation.TranslationViewModel.ApplyProgress | app/src/main/java/com/google/ai/edge/samples/rag/TranslationViewModel.kt:86-94 | the callbacks applied in order leave the screen as `Streamed` says |
| Translation.TranslationViewModel.TranslateText | app/src/main/java/com/google/ai/edge/samples/rag/TranslationViewModel.kt:61-105 | a blank text or a running translation is refused without calling the pipeline; otherwise exactly one generation is asked for with the view model's prompt, and the screen ends as `AfterTranslate` says; the pipeline's backend is left as it was |
| Translation.TranslationViewModel.SetSelectedLanguage | app/src/main/java/com/google/ai/edge/samples/rag/TranslationViewModel.kt:49-56 | the language is stored; a stored text that is not blank is translated again, with the prompt for that text and the new language, unless a translation is running, so exactly one generation is asked for then and none otherwise; the screen ends as `AfterSetLanguage` says and the backend is left as it was |
| Translation.TranslationViewModel.ClearTranslation | app/src/main/java/com/google/ai/edge/samples/rag/TranslationViewModel.kt:124-128 | both texts are emptied and the screen is idle; the language is kept |
| Embedder.ClampId | app/src/main/java/com/google/ai/edge/samples/rag/CustomMultilingualEmbedder.kt:170-176 | every id lands in the vocabulary range: ids inside are kept, ids outside become the unknown-token id |
| Embedder.ClampIdempotent | app/src/main/java/com/google/ai/edge/samples/rag/CustomMultilingualEmbedder.kt:170-176 | clamping twice is clamping once |
| Embedder.TokenizeWithMatureBert | app/src/main/java/com/google/ai/edge/samples/rag/CustomMultilingualEmbedder.kt:157-210 | always 128 ids within the vocabulary: [CLS], the first 126 clamped token ids in order, [SEP], then padding; [CLS] [SEP] and padding when the tokenizer throws |
| Embedder.ModelInputMatches | app/src/main/java/com/google/ai/edge/samples/rag/CustomMultilingualEmbedder.kt:179-208 | any 128 ids with that layout are the one model input for the tokens |
| Embedder.NewArrayShape | app/src/main/java/com/google/ai/edge/samples/rag/CustomMultilingualEmbedder.kt:248-259 | an array of n buffers of one shape has that shape with n in front |
| Embedder.AllocateHasShape | app/src/main/java/com/google/ai/edge/samples/rag/CustomMultilingualEmbedder.kt:227-263 | with non-negative dimensions, an output of one to three dimensions gets a buffer of exactly its shape, and any other rank gets one zeroed flat array of the product of its dimensions |
| Embedder.MatrixShape | app/src/main/java/com/google/ai/edge/samples/rag/CustomMultilingualEmbedder.kt:248-259 | a two-dimensional output gets a buffer of its exact shape |
| Embedder.CubeShape | app/src/main/java/com/google/ai/edge/samples/rag/CustomMultilingualEmbedder.kt:237-259 | a three-dimensional output gets a buffer of its exact shape |
| Embedder.AllocateNegative | app/src/main/java/com/google/ai/edge/samples/rag/CustomMultilingualEmbedder.kt:248-259 | a negative first dimension, or a negative second one behind a positive first, makes the allocation throw |
| Embedder.PooledShapeAllocation | app/src/main/java/com/google/ai/edge/samples/rag/CustomMultilingualEmbedder.kt:232-236 | a [1, 512] output gets one zeroed row of 512 values |
| Embedder.AllocateAll | app/src/main/java/com/google/ai/edge/samples/rag/CustomMultilingualEmbedder.kt:227-263 | every output gets its buffer, in order, exactly when no allocation throws |
| Embedder.FirstPooled | app/src/main/java/com/google/ai/edge/samples/rag/CustomMultilingualEmbedder.kt:268-278 | an embedding found by the first scan has 512 values |
| Embedder.FirstPooledFinds | app/src/main/java/com/google/ai/edge/samples/rag/CustomMultilingualEmbedder.kt:268-278 | the first scan returns the first pooled output when nothing before it throws |
| Embedder.FirstPooledMissing | app/src/main/java/com/google/ai/edge/samples/rag/CustomMultilingualEmbedder.kt:268-278 | with no pooled output and no empty array, the first scan finds nothing |
| Embedder.FirstPooledThrows | app/src/main/java/com/google/ai/edge/samples/rag/CustomMultilingualEmbedder.kt:268-278 | an empty array before any pooled output makes the first scan throw |
| Embedder.FirstSequence | app/src/main/java/com/google/ai/edge/samples/rag/CustomMultilingualEmbedder.kt:280-299 | an embedding found by the second scan has 512 values |
| Embedder.FirstSequenceFinds | app/src/main/java/com/google/ai/edge/samples/rag/CustomMultilingualEmbedder.kt:280-299 | the second scan returns the first 512 values of the first row of the first 768-wide sequence output |
| Embedder.PooledPreferred | app/src/main/java/com/google/ai/edge/samples/rag/CustomMultilingualEmbedder.kt:268-278 | a pooled output is the embedding, ahead of any sequence output |
| Embedder.SequenceFallback | app/src/main/java/com/google/ai/edge/samples/rag/CustomMultilingualEmbedder.kt:280-299 | without a pooled output, the sequence output's first row cut to 512 values is the embedding |
| Embedder.EmptyOutputGivesZeros | app/src/main/java/com/google/ai/edge/samples/rag/CustomMultilingualEmbedder.kt:268-308 | an empty array met by the first scan gives the zero embedding |
| Embedder.InferenceDimension | app/src/main/java/com/google/ai/edge/samples/rag/CustomMultilingualEmbedder.kt:212-309 | the embedding has 512 values whatever the outputs are and whatever `Exception` the allocation, the interpreter or the scans throw |
| Embedder.SelectEmbedding | app/src/main/java/com/google/ai/edge/samples/rag/CustomMultilingualEmbedder.kt:268-302 | the two scans choose the pooled output, else the sequence row, else zeros |
| Embedder.RunEmbeddingInference | app/src/main/java/com/google/ai/edge/samples/rag/CustomMultilingualEmbedder.kt:212-309 | the buffers are allocated, the interpreter runs and the embedding is chosen; any exception gives zeros; the result has 512 values |
| Embedder.Embedding | app/src/main/java/com/google/ai/edge/samples/rag/CustomMultilingualEmbedder.kt:135-155 | the embedding of a text always has 512 values |
| Embedder.ComputeEmbedding | app/src/main/java/com/google/ai/edge/samples/rag/CustomMultilingualEmbedder.kt:135-155 | tokenizing, then inference, gives the text's embedding |
| Embedder.GetEmbeddings | app/src/main/java/com/google/ai/edge/samples/rag/CustomMultilingualEmbedder.kt:112-122 | the result is empty exactly when the request has no items; otherwise it is the first item's embedding |
| Embedder.GetBatchEmbeddings | app/src/main/java/com/google/ai/edge/samples/rag/CustomMultilingualEmbedder.kt:124-133 | one embedding per item, in order; the first agrees with `getEmbeddings` |
| Whisper.Shifted | app/cpp/TFLiteEngine.cpp:88-96 | every special id is one higher |
| Whisper.ReadInts | app/cpp/TFLiteEngine.cpp:64-66 | the filter words are the `count` integers stored one after the other |
| Whisper.ReadEntries | app/cpp/TFLiteEngine.cpp:75-84 | reading `count` words that succeeds gives exactly `count` words |
| Whisper.ReadIntsRoundTrip | app/cpp/TFLiteEngine.cpp:64-66 | integers written little-endian are read back unchanged |
| Whisper.ReadEntriesStep | app/cpp/TFLiteEngine.cpp:75-84 | a word whose length prefix and bytes sit in front of words already read is read first |
| Whisper.EntriesRoundTrip | app/cpp/TFLiteEngine.cpp:75-84 | written length-prefixed words are read back, ending right after the last one |
| Whisper.BlobNumbers | app/cpp/TFLiteEngine.cpp:44-71 | the magic, the dimensions, the filters and the word count of a written blob read back at their offsets |
| Whisper.HeaderAtParses | app/cpp/TFLiteEngine.cpp:44-84 | bytes that hold a header's numbers and words at their offsets parse to that header |
| Whisper.LayoutParses | app/cpp/TFLiteEngine.cpp:44-84 | bytes laid out as a written blob parse to the header written |
| Whisper.BlobRoundTrip | app/cpp/TFLiteEngine.cpp:44-84 | reading bytes that start with a written blob gives back its header, whatever follows |
| Whisper.LoadLabelsVocabulary | app/cpp/TFLiteEngine.cpp:75-117 | a successful load returns 0 and initialises the engine; the blob's words sit at their ids, every id up to the mode's vocabulary size has its label, and end-of-text is 50256, or 50257 when multilingual |
| Whisper.FreeThenLoadReads | app/cpp/TFLiteEngine.cpp:31 | an initialised engine is left alone and reports success; after `freeModel` a load reads the blob again |
| Whisper.RetryShiftsIdsTwice | app/cpp/TFLiteEngine.cpp:88-127 | as written, a multilingual load that fails on the model file and is retried makes end-of-text 50258 and labels 50257 as an extra token |
| Whisper.RetryKeepsIds | app/cpp/TFLiteEngine.cpp:88-127 | with the ids set from the mode, a failed load and a retry end with the multilingual ids, end-of-text 50257 |
| Whisper.RetryDecodesEndOfText | app/cpp/TFLiteEngine.cpp:338-343 | after the retried multilingual load as written, the real end-of-text id no longer ends the text |
| Whisper.DecodedAppend | app/cpp/TFLiteEngine.cpp:331-374 | decoding goes id by id: two runs decode to the two texts joined when the first run has no end-of-text |
| Whisper.DecodedStopsAtEot | app/cpp/TFLiteEngine.cpp:338-341 | nothing after the first end-of-text id is decoded |
| Whisper.DecodedSkips | app/cpp/TFLiteEngine.cpp:343-372 | ids above end-of-text and ids missing from the vocabulary add nothing |
| Whisper.Fit | app/cpp/TFLiteEngine.cpp:216 | the resized buffer has the chunk size, keeps the samples that fit and is zero beyond them |
| Whisper.ChunksCover | app/cpp/TFLiteEngine.cpp:404-413 | the chunks are just enough for the recording, each has the chunk size, and every sample sits in its chunk at its offset |
| Whisper.ChunkPadding | app/cpp/TFLiteEngine.cpp:415-418 | what follows the recording in the last chunk is silence |
| Whisper.FitChunk | app/cpp/TFLiteEngine.cpp:216 | a chunk is already of the chunk size, so the resize leaves it unchanged |
| Whisper.TFLiteEngine.constructor | app/cpp/TFLiteEngine.cpp:31 | a new engine is not initialised, has the default special ids and no model buffer |
| Whisper.TFLiteEngine.ReadWords | app/cpp/TFLiteEngine.cpp:75-84 | the word loop succeeds exactly when the words can be read, and stores them at ids 0, 1, … |
| Whisper.TFLiteEngine.ReadBlob | app/cpp/TFLiteEngine.cpp:44-84 | the blob is read as `ParseBlob` says; a bad magic changes nothing, and a good blob stores its header and words |
| Whisper.TFLiteEngine.ReadDimensions | app/cpp/TFLiteEngine.cpp:64-84 | after the dimensions, the filters and words are read as `ParseDimensions` says |
| Whisper.TFLiteEngine.AddLabels | app/cpp/TFLiteEngine.cpp:98-117 | every id in the given range gets its label: a marker for the special ids, a timestamp above the begin id, an extra token otherwise |
| Whisper.TFLiteEngine.LoadModelAsWritten | app/cpp/TFLiteEngine.cpp:27-167 | as written, the status and the new state are those of `LoadedAsWritten`, including the increment of the special ids on every multilingual load that reads the blob; the model buffer is replaced exactly when the model file opens |
| Whisper.TFLiteEngine.LoadModel | app/cpp/TFLiteEngine.cpp:27-167 | the status and the new state are those of `Loaded`, where the special ids are set from the mode; the model buffer is replaced exactly when the model file opens |
| Whisper.TFLiteEngine.DecodeOutput | app/cpp/TFLiteEngine.cpp:331-374 | the decoding loop yields the text of the output ids |
| Whisper.TFLiteEngine.TranscribeBuffer | app/cpp/TFLiteEngine.cpp:169-397 | on a loaded engine, the samples are resized to one chunk and the interpreter's output is decoded; it is empty when the spectrogram or the invocation fails |
| Whisper.TFLiteEngine.TranscribeFile | app/cpp/TFLiteEngine.cpp:399-425 | on a loaded engine, the transcripts of the padded chunks are joined in order |
| Whisper.TFLiteEngine.FreeModel | app/cpp/TFLiteEngine.cpp:427-450 | freeing is undefined behaviour exactly when the buffer was already deleted; otherwise the engine is no longer initialised, its vocabulary is emptied, the special ids are back to their defaults, the mel dimensions and filters are kept, and an owned buffer is deleted with the pointer left dangling |
| Whisper.FreeAfterFailedLoad | app/cpp/TFLiteEngine.cpp:121-144 | after a free, a second free is well defined exactly when a load in between read a good blob and opened the model file; a load that fails at the model file leaves the deleted buffer in place, and freeing it again is a double `delete[]` |
| Wave.DataSamples | app/src/main/java/com/google/ai/edge/samples/rag/WaveUtil.kt:125-145 | at most `chunkSize / 2` samples, fewer only when the buffer ends first, each the 16-bit value at its two bytes |
| Wave.MoveTo | app/src/main/java/com/google/ai/edge/samples/rag/WaveUtil.kt:149 | `position` accepts exactly the targets inside the buffer and throws otherwise |
| Wave.CheckedStep | app/src/main/java/com/google/ai/edge/samples/rag/WaveUtil.kt:97-150 | a turn that goes on moves forward by at least the chunk header; it is the source's turn except that a negative skip is refused |
| Wave.StuckNeverEndsAsWritten | app/src/main/java/com/google/ai/edge/samples/rag/WaveUtil.kt:147-149 | as written, a 44-byte file with a "junk" chunk of size -8 sends the loop back to the same chunk forever; the checked walk gives no samples |
| Wave.AsWrittenAgrees | app/src/main/java/com/google/ai/edge/samples/rag/WaveUtil.kt:97-151 | when no chunk is skipped by a negative size, the loop as written ends, within one turn per byte, with the checked walk's result |
| Wave.DataSamplesSame | app/src/main/java/com/google/ai/edge/samples/rag/WaveUtil.kt:125-145 | a data chunk's samples depend only on the bytes from its start on |
| Wave.StepSameAfter | app/src/main/java/com/google/ai/edge/samples/rag/WaveUtil.kt:97-150 | a turn reads only the bytes from its own position on |
| Wave.WalkSameAfter | app/src/main/java/com/google/ai/edge/samples/rag/WaveUtil.kt:97-151 | the walk never reads behind its position |
| Wave.RiffSizeIgnored | app/src/main/java/com/google/ai/edge/samples/rag/WaveUtil.kt:82-83 | the RIFF size field does not change the result |
| Wave.WavFile | app/src/main/java/com/google/ai/edge/samples/rag/WaveUtil.kt:61-155 | a canonical file is 44 bytes of headers plus two bytes per sample |
| Wave.WavFileLayout | app/src/main/java/com/google/ai/edge/samples/rag/WaveUtil.kt:61-155 | the canonical file has its identifiers, sizes and samples where the parser looks for them |
| Wave.WavLayoutParses | app/src/main/java/com/google/ai/edge/samples/rag/WaveUtil.kt:61-155 | such a file parses to exactly its samples: "fmt " is passed over and "data" gives every sample |
| Wave.WavRoundTrip | app/src/main/java/com/google/ai/edge/samples/rag/WaveUtil.kt:52-155 | writing samples to a canonical file and extracting them gives the samples back, whatever the format fields say |
| Wave.ReadData | app/src/main/java/com/google/ai/edge/samples/rag/WaveUtil.kt:129-142 | the sample loop reads exactly the chunk's samples |
| Wave.ReadChunk | app/src/main/java/com/google/ai/edge/samples/rag/WaveUtil.kt:97-150 | one turn of the loop, at a chunk header, is the checked step |
| Wave.ParseWavFile | app/src/main/java/com/google/ai/edge/samples/rag/WaveUtil.kt:61-155 | a short file or a wrong header gives no samples; otherwise the chunks are walked from byte 12 with negative skips refused |
| AppScreen.Rem | app/src/main/java/com/google/ai/edge/samples/rag/AppScreen.kt:372-374 | Kotlin `%`: dividend = divisor × quotient + remainder, and the remainder takes the dividend's sign |
| AppScreen.ClockOf | app/src/main/java/com/google/ai/edge/samples/rag/AppScreen.kt:372-374 | the seconds are the whole seconds of the duration and equal 60 × minutes + remaining seconds; for a non-negative duration the remaining seconds lie in 0..59 |
| AppScreen.LongDurationReadsBack | app/src/main/java/com/google/ai/edge/samples/rag/AppScreen.kt:372-379 | from one minute on, the minutes before the colon and the two-digit seconds after it make up the whole seconds, which the parenthesis repeats |
| AppScreen.ShortDurationReadsBack | app/src/main/java/com/google/ai/edge/samples/rag/AppScreen.kt:372-379 | under a minute, the text is the whole seconds followed by " sec" |
| AppScreen.StatusByPriority | app/src/main/java/com/google/ai/edge/samples/rag/AppScreen.kt:371-417 | the indicator shown is the wanted one of highest priority (recording, converting, translating, loading, failed), and none is shown exactly when none is wanted |
| AppScreen.SendGate | app/src/main/java/com/google/ai/edge/samples/rag/AppScreen.kt:520-522 | the button is enabled exactly when a click would send and the model is ready without error, so an enabled button always sends and empties the text field; a click does not itself ask for a ready model; after a click that sent, a second click sends only when images are still selected: those kept by the submit callback path, never after `requestResponse` cleared them |
| AppScreen.Click | app/src/main/java/com/google/ai/edge/samples/rag/AppScreen.kt:300-312 | a click sends exactly when there is content: the text field is then emptied and the text handed on, to the submit callback when there is one, otherwise to `requestResponse`, or dropped when there is no view model; on that path every selected image is cleared; without content the field is kept and nothing is cleared |
| AppScreen.Composer.constructor | app/src/main/java/com/google/ai/edge/samples/rag/AppScreen.kt:300-312 | the composer starts with an empty text field |
| AppScreen.Composer.OnSendClick | app/src/main/java/com/google/ai/edge/samples/rag/AppScreen.kt:300-312 | the text, the hand-off and the images cleared are exactly those of `Click` on the text before the click |

## Left out

- File and asset reading is left out. The corpus lines of `memorizeChunks`, the WAV bytes of `getSamples`, the PCM of `transcribeFile` and the vocabulary blobs compiled into the engine are all parameters.
- Loading the TensorFlow Lite model file (TFLiteEngine.cpp:122-158) is reduced to whether the file opens. The interpreter's construction, tensor allocation and `TFLITE_MINIMAL_CHECK`, which exits the process, are not modelled.
- Concurrency is left out. Coroutines, executors, `synchronized` and `@Volatile` are taken to run in order: each streamed update is applied before the next delta arrives.
- Floating point is left out:
  - the scaling of PCM samples by `Short.MAX_VALUE` (WaveUtil.kt:137);
  - the values of embeddings, which are `real`s that are only moved around;
  - the spectrogram;
  - the sampling parameters of the LLM options.
- Foreign libraries appear only through the values they return or throw: the MediaPipe LLM and its sessions, the RAG library's chain and semantic memory, the WordPiece tokenizer, the TensorFlow Lite interpreter, `log_mel_spectrogram`, and `BitmapFactory` with the content resolver.
- Whisper.TFLiteEngine.TranscribeBuffer: requires a loaded engine. Transcribing before a successful `loadModel`, or after `freeModel`, writes through a null input pointer and calls a null interpreter (TFLiteEngine.cpp:272-288); that is undefined behaviour and is not modelled. The Kotlin wrapper reaches it when it ignores a failed load.
- Whisper.TFLiteEngine.TranscribeFile: requires a loaded engine, for the same reason.
- RagPipeline.TemplateParts: `PromptBuilder(ROMPT_TEMPLATE).buildPrompt` (RagPipeline.kt:387) is a library function, and it is taken to insert the context and the query verbatim into slots {0} and {1}. `RagPipeline.EnhancedPrompt`, `RagPipeline.IssuedQuery` and `RagPipeline.ImageBeforeQuery` rest on this reading.
- Whisper.TFLiteEngine.FreeModel: `g_vocab.reset()` is taken to restore the special ids to their initial values. `whisper.h`, where `reset` is defined, is not part of this model. `Whisper.FreeThenLoadReads` and the corrected half of the Whisper finding (`Whisper.RetryKeepsIds`) rest on this reading. A second `freeModel` with no successful load in between deletes the model buffer again (TFLiteEngine.cpp:436-439, the pointer is never reset). That is undefined behaviour: the model reports it as `defined == false` and says nothing about the state afterwards.
- `whisper.h` is not part of this model. The initial special ids (end-of-text 50256, start 50257, previous 50360, start-of-LM 50361, no-timestamps 50362, begin 50363) are those of upstream Whisper.
- Undefined behaviour of the C++ code is a distinct outcome and is not given a meaning. This covers a blob read past its end and a negative word length: `Whisper.Parse.Unreadable` and `Whisper.Load.Undefined`.
- Whisper.TFLiteEngine.LoadModel: when the load is undefined behaviour, the contract says nothing about the new state.
- Whisper.TFLiteEngine.LoadModelAsWritten: the same.
- Whisper.ReadInts: the mel filters are read as raw 32-bit words, not as `float`s, because the filters are only copied and never used by the modelled code.
- Whisper.TFLiteEngine.ReadWords: the words go into a local map that is stored after the loop rather than one by one. A failed read in the middle is undefined behaviour in the source either way.
- Wave.ParseWavFile: the samples are the signed 16-bit values before their scaling to floats.
- Embedder.TokenizeWithMatureBert: the token ids come from the foreign tokenizer. The tokenizer's own vocabulary and splitting are not modelled.
- Embedder.InferenceDimension: holds for every `Exception`. An `OutOfMemoryError` from allocating very large output buffers (CustomMultilingualEmbedder.kt:227-262) is an `Error`, which neither `runEmbeddingInference` nor `computeEmbedding` catches. The model's allocation fails only for negative sizes, and memory exhaustion is not modelled.
- Embedder.RunEmbeddingInference: the same; the `catch` of `computeEmbedding` (CustomMultilingualEmbedder.kt:151-154) is never reached for an `Exception`, since tokenizing and inference each catch their own.
- Chat.ChatViewModel.RequestResponseFromModel: an exception that escapes (from `openInputStream` or a thrown reply of the pipeline) ends the coroutine launched by `requestResponse` and, uncaught, the app. The model returns it as `escaped`; the thread shown up to that point is not modelled further.
- Chat.ChatViewModel.RequestResponseFromModelAsWritten: the same.
- AppScreen.LongDurationReadsBack: digits are ASCII. `String.format` (AppScreen.kt:376) uses the default locale's digits, which differ on, for example, Arabic or Persian devices.
- AppScreen.ShortDurationReadsBack: the same; digits are ASCII.
- AppScreen.SendGate: `onClearImage` is taken to remove the image it is handed from the selection; the parent screen that does so is not modelled.
- Translation.TranslationViewModel.TranslateText: an `OutOfMemoryError` is not caught by the source. It is modelled as leaving the screen as the callbacks left it, and it does not propagate further.
- AppScreen.Composer.OnSendClick: the hand-off to the submit callback or to `requestResponse` (or its omission when `viewModel` is null) is returned as a `Sent` value, and the images given to `onClearImage` as a sequence, rather than performed. Focus handling is left out.
- User-interface layout, icons, colours other than the indicator's tone, navigation, the other screens (`TranslationScreen`, `ChatScreen`, `MainScreen`) and the audio recorder are not modelled.
- `RagPipeline.testMultimodalSupport`, the construction of the pipeline's configuration, and the log statements of every file are not modelled.
- `UniversalSentenceEncoderEmbedder` and the other context files are not modelled.
- `ChatViewModel.memorizeChunks` only delegates to the pipeline on a background executor. It is covered by `RagPipeline.RagPipeline.MemorizeChunks`.

## Findings

| source | as written | input that shows it | evidently intended | confidence | as-written member | corrected member |
|---|---|---|---|---|---|---|
| app/src/main/java/com/google/ai/edge/samples/rag/ChatViewMode.kt:74-96 | when the selected image cannot be decoded, "Failed to load image." becomes the value of `fullResponse`, which is then discarded; the thread keeps the "..." placeholder for good | any request with one image URI whose `decodeStream` returns null | the failure text replaces the placeholder as the model's message | not executed | Chat.ChatViewModel.RequestResponseFromModelAsWritten | Chat.ChatViewModel.RequestResponseFromModel |
| app/cpp/TFLiteEngine.cpp:88-96 | the multilingual branch increments the global special ids on every load that reads the blob; a load that fails at the model file (line 124-127) returns -1 with the increments kept, so a retry increments them again | `loadModel` in multilingual mode with a model path that cannot be opened, then again with one that can: end-of-text becomes 50258, and the real end-of-text 50257 is labelled "[_extra_token_50257]" | the special ids are set from the mode: 50257 for end-of-text in multilingual mode whatever happened before | not executed | Whisper.RetryShiftsIdsTwice | Whisper.RetryKeepsIds |
| app/src/main/java/com/google/ai/edge/samples/rag/WaveUtil.kt:147-149 | an unknown chunk is skipped by adding its signed size to the position; a size of -8 moves the position back onto the same chunk header, and the loop never ends | the 44-byte file "RIFF", 4 size bytes, "WAVE", "junk", size bytes F8 FF FF FF, then 24 zero bytes | a chunk whose size is negative is rejected, so the loop always moves forward and `getSamples` returns no samples | not executed | Wave.StuckNeverEndsAsWritten | Wave.ParseWavFile |
