/**
 * `ChatViewMode.kt`: the chat thread of `ChatViewModel`, the placeholder
 * shown while the model answers, and the streaming updates that replace it.
 *
 * The streamed responses arrive as deltas that are accumulated; each update
 * of the screen is applied in arrival order (the coroutine launched per
 * update is taken to run before the next delta arrives).
 */
module Chat {
  import opened Text
  import opened Outcomes
  import R = RagPipeline

  datatype MessageOwner = User | Model

  /** An image reference selected by the user. */
  type Uri = string

  datatype MessageData = MessageData(owner: MessageOwner, message: string, imageUris: seq<Uri>)

  const Placeholder: string := "..."
  const ImageLoadFailure: string := "Failed to load image."

  /** `updateLastMessage`: the last message gets the new text when it has
      the given owner (keeping its images); otherwise a message is appended.
      Everything before the last message is left alone. */
  function UpdatedLast(messages: seq<MessageData>, role: MessageOwner, message: string): (r: seq<MessageData>)
    ensures |r| > 0 && r[|r| - 1].owner == role && r[|r| - 1].message == message
    ensures messages != [] && messages[|messages| - 1].owner == role ==>
              |r| == |messages| && r[..|r| - 1] == messages[..|messages| - 1]
              && r[|r| - 1].imageUris == messages[|messages| - 1].imageUris
    ensures !(messages != [] && messages[|messages| - 1].owner == role) ==>
              r == messages + [MessageData(role, message, [])]
  {
    if messages != [] && messages[|messages| - 1].owner == role then
      var last := messages[|messages| - 1];
      messages[..|messages| - 1] + [last.(message := message)]
    else
      messages + [MessageData(role, message, [])]
  }

  /** Updating the last message twice for the same owner is updating it once
      with the later text: the screen shows the latest update. */
  lemma UpdatedLastTwice(messages: seq<MessageData>, role: MessageOwner, first: string, second: string)
    ensures UpdatedLast(UpdatedLast(messages, role, first), role, second) == UpdatedLast(messages, role, second)
  {
    var once := UpdatedLast(messages, role, first);
    assert once[..|once| - 1] == (if messages != [] && messages[|messages| - 1].owner == role
                                  then messages[..|messages| - 1] else messages);
  }

  /** The thread after a request: the user's message with its images, then
      the model's placeholder. */
  function AfterRequest(messages: seq<MessageData>, prompt: string, imageUris: seq<Uri>): seq<MessageData> {
    messages + [MessageData(User, prompt, imageUris), MessageData(Model, Placeholder, [])]
  }

  /** The thread after the deltas were streamed onto text already
      accumulated: the model's message shows everything accumulated. */
  function AfterStream(messages: seq<MessageData>, accumulated: string, deltas: seq<string>): seq<MessageData> {
    if deltas == [] then messages else UpdatedLast(messages, Model, accumulated + Concat(deltas))
  }

  /** Whether the request has an image that could not be decoded. */
  predicate ImageFailed(imageUris: seq<Uri>, decoded: bool) {
    imageUris != [] && !decoded
  }

  /** The thread after `requestResponseFromModel`, as the code is written:
      when the image cannot be decoded, the failure text is computed and
      dropped, and the thread is not touched. */
  function AfterModelAsWritten(messages: seq<MessageData>, accumulated: string, imageUris: seq<Uri>,
                               decoded: bool, deltas: seq<string>): seq<MessageData> {
    if ImageFailed(imageUris, decoded) then messages else AfterStream(messages, accumulated, deltas)
  }

  /** The thread after `requestResponseFromModel` with the failure text
      shown as the model's message. */
  function AfterModel(messages: seq<MessageData>, accumulated: string, imageUris: seq<Uri>,
                      decoded: bool, deltas: seq<string>): seq<MessageData> {
    if ImageFailed(imageUris, decoded) then UpdatedLast(messages, Model, ImageLoadFailure)
    else AfterStream(messages, accumulated, deltas)
  }

  /** The text the model's message ends with after one exchange. */
  function ReplyText(imageUris: seq<Uri>, decoded: bool, deltas: seq<string>): string {
    if ImageFailed(imageUris, decoded) then ImageLoadFailure
    else if deltas == [] then Placeholder
    else Concat(deltas)
  }

  /** One exchange adds exactly two messages to the thread: the user's
      prompt with its images, then the model's message holding all the
      streamed text (or the placeholder when nothing was streamed, or the
      failure text when the image could not be decoded). */
  lemma ExchangeAppendsTwo(messages: seq<MessageData>, prompt: string, imageUris: seq<Uri>,
                           decoded: bool, deltas: seq<string>)
    ensures AfterModel(AfterRequest(messages, prompt, imageUris), "", imageUris, decoded, deltas)
         == messages + [MessageData(User, prompt, imageUris), MessageData(Model, ReplyText(imageUris, decoded, deltas), [])]
  {
    var requested := AfterRequest(messages, prompt, imageUris);
    assert requested[..|requested| - 1] == messages + [MessageData(User, prompt, imageUris)];
    if !ImageFailed(imageUris, decoded) && deltas != [] {
      assert "" + Concat(deltas) == Concat(deltas);
    }
  }

  /** As written, a request whose image cannot be decoded leaves the
      placeholder as the model's message for good: the failure text never
      reaches the thread. */
  lemma ImageFailureHiddenAsWritten(messages: seq<MessageData>, prompt: string, imageUris: seq<Uri>,
                                    deltas: seq<string>)
    requires imageUris != []
    ensures var thread := AfterModelAsWritten(AfterRequest(messages, prompt, imageUris), "", imageUris, false, deltas);
            thread == messages + [MessageData(User, prompt, imageUris), MessageData(Model, Placeholder, [])]
            && thread[|thread| - 1].message != ReplyText(imageUris, false, deltas)
  {
  }

  /** One more streamed delta: the accumulated text grows by it and the
      model's message shows the new accumulated text. */
  lemma StreamStep(messages: seq<MessageData>, accumulated: string, done: seq<string>, delta: string,
                   done': seq<string>)
    requires done' == done + [delta]
    ensures accumulated + Concat(done') == (accumulated + Concat(done)) + delta
    ensures AfterStream(messages, accumulated, done')
         == UpdatedLast(AfterStream(messages, accumulated, done), Model, accumulated + Concat(done'))
  {
    assert done'[..|done'| - 1] == done;
    assert Concat(done') == Concat(done) + delta;
    var x, y := accumulated + Concat(done), accumulated + Concat(done');
    assert y == x + delta;
    if done != [] {
      UpdatedLastTwice(messages, Model, x, y);
    }
  }

  /** Whether `openInputStream` throws for the first selected image. */
  predicate OpenThrows(imageUris: seq<Uri>, openFailure: Option<Failure>) {
    imageUris != [] && openFailure.Some?
  }

  /** What the pipeline returns or throws for a request: the multimodal path
      with an image, the text-only chain without one. */
  function GenerationReply(imageUris: seq<Uri>, outcome: Reply, env: R.MultimodalEnv): Reply {
    if imageUris != [] then R.MultimodalReply(env) else outcome
  }

  /** The calls a request makes of the pipeline. */
  function GenerationCalls(prompt: string, imageUris: seq<Uri>, env: R.MultimodalEnv): seq<R.Call> {
    if imageUris != [] then R.MultimodalCalls(prompt, env)
    else [R.Invoke(R.RetrievalRequest(prompt, R.AnswerConfig))]
  }

  /** Whether the pipeline's backend is open after a request: only the
      multimodal path releases it, once its retrieval succeeded, unless
      closing it threw. */
  function BackendAfter(wasOpen: bool, imageUris: seq<Uri>, env: R.MultimodalEnv): bool {
    if imageUris != [] then wasOpen && (R.Reached(env) == 0 || env.closeThrows) else wasOpen
  }

  /** The exception that leaves `requestResponseFromModel` and its
      coroutine: a thrown reply is not caught there. */
  function Escaping(reply: Reply): (escaped: Option<Failure>)
    ensures escaped.Some? <==> reply.Raised?
    ensures reply.Raised? ==> escaped.value == reply.failure
  {
    if reply.Raised? then Some(reply.failure) else None
  }

  /** The state of one chat screen: the thread, the text accumulated for
      the answer being streamed, and the pipeline it asks. */
  class ChatViewModel {
    var messages: seq<MessageData>
    var streamingText: string
    const pipeline: R.RagPipeline

    constructor (pipeline: R.RagPipeline)
      ensures messages == [] && streamingText == "" && this.pipeline == pipeline
    {
      messages := [];
      streamingText := "";
      this.pipeline := pipeline;
    }

    /** `appendMessage`. */
    method AppendMessage(role: MessageOwner, message: string, imageUris: seq<Uri>)
      modifies this
      ensures messages == old(messages) + [MessageData(role, message, imageUris)]
      ensures streamingText == old(streamingText)
    {
      messages := messages + [MessageData(role, message, imageUris)];
    }

    /** `updateLastMessage`. */
    method UpdateLastMessage(role: MessageOwner, message: string)
      modifies this
      ensures messages == UpdatedLast(old(messages), role, message)
      ensures streamingText == old(streamingText)
    {
      if messages != [] && messages[|messages| - 1].owner == role {
        var last := messages[|messages| - 1];
        messages := messages[..|messages| - 1] + [last.(message := message)];
      } else {
        AppendMessage(role, message, []);
      }
    }

    /** `requestResponse`: show the user's message and the placeholder, and
        reset the accumulated text. */
    method RequestResponse(prompt: string, imageUris: seq<Uri>)
      modifies this
      ensures messages == AfterRequest(old(messages), prompt, imageUris)
      ensures streamingText == ""
    {
      AppendMessage(User, prompt, imageUris);
      AppendMessage(Model, Placeholder, []);
      streamingText := "";
    }

    /** The streaming callback: accumulate the delta, then show the whole
        accumulated text as the model's message. */
    method OnResponse(delta: string)
      modifies this
      ensures streamingText == old(streamingText) + delta
      ensures messages == UpdatedLast(old(messages), Model, streamingText)
    {
      streamingText := streamingText + delta;
      UpdateLastMessage(Model, streamingText);
    }

    /** The callback applied to each streamed delta in turn. */
    method Stream(deltas: seq<string>)
      modifies this
      ensures streamingText == old(streamingText) + Concat(deltas)
      ensures messages == AfterStream(old(messages), old(streamingText), deltas)
    {
      for i := 0 to |deltas|
        invariant streamingText == old(streamingText) + Concat(deltas[..i])
        invariant messages == AfterStream(old(messages), old(streamingText), deltas[..i])
      {
        OnResponse(deltas[i]);
        StreamStep(old(messages), old(streamingText), deltas[..i], deltas[i], deltas[..i + 1]);
      }
      assert deltas[..|deltas|] == deltas;
    }

    /** The generation itself: the multimodal path when there is a decoded
        image, the text-only path when there is no image, each streaming
        its deltas onto the thread. */
    method Generate(prompt: string, imageUris: seq<Uri>, deltas: seq<string>, outcome: Reply, env: R.MultimodalEnv)
      returns (reply: Reply)
      modifies this, pipeline
      ensures reply == GenerationReply(imageUris, outcome, env)
      ensures imageUris != [] ==> pipeline.calls == old(pipeline.calls) + R.MultimodalCalls(prompt, env)
      ensures imageUris == [] ==> pipeline.calls == old(pipeline.calls) + [R.Invoke(R.RetrievalRequest(prompt, R.AnswerConfig))]
      ensures pipeline.backendOpen == BackendAfter(old(pipeline.backendOpen), imageUris, env)
      ensures streamingText == old(streamingText) + Concat(deltas)
      ensures messages == AfterStream(old(messages), old(streamingText), deltas)
    {
      if imageUris != [] {
        reply := pipeline.GenerateResponseWithImage(prompt, env);
      } else {
        reply := pipeline.GenerateResponse(prompt, outcome);
      }
      Stream(deltas);
    }

    /** `requestResponseFromModel` as written: a request whose image cannot
        be decoded computes the failure text and drops it. `openFailure` is
        what `openInputStream` throws, if it does; `escaped` is the exception
        that leaves the launched coroutine. */
    method RequestResponseFromModelAsWritten(prompt: string, imageUris: seq<Uri>, openFailure: Option<Failure>,
                                             decoded: bool, deltas: seq<string>, outcome: Reply,
                                             env: R.MultimodalEnv)
      returns (escaped: Option<Failure>)
      modifies this, pipeline
      ensures OpenThrows(imageUris, openFailure) ==>
                escaped == openFailure && messages == old(messages) && streamingText == old(streamingText)
                && pipeline.calls == old(pipeline.calls) && pipeline.backendOpen == old(pipeline.backendOpen)
      ensures !OpenThrows(imageUris, openFailure) ==>
                messages == AfterModelAsWritten(old(messages), old(streamingText), imageUris, decoded, deltas)
      ensures !OpenThrows(imageUris, openFailure) && ImageFailed(imageUris, decoded) ==>
                escaped == None && streamingText == old(streamingText)
                && pipeline.calls == old(pipeline.calls) && pipeline.backendOpen == old(pipeline.backendOpen)
      ensures !OpenThrows(imageUris, openFailure) && !ImageFailed(imageUris, decoded) ==>
                escaped == Escaping(GenerationReply(imageUris, outcome, env))
                && streamingText == old(streamingText) + Concat(deltas)
                && pipeline.calls == old(pipeline.calls) + GenerationCalls(prompt, imageUris, env)
                && pipeline.backendOpen == BackendAfter(old(pipeline.backendOpen), imageUris, env)
    {
      if OpenThrows(imageUris, openFailure) {
        escaped := openFailure;
      } else if ImageFailed(imageUris, decoded) {
        var fullResponse := ImageLoadFailure;
        escaped := None;
      } else {
        var reply := Generate(prompt, imageUris, deltas, outcome, env);
        escaped := Escaping(reply);
      }
    }

    /** `requestResponseFromModel` with the failure text shown: a request
        whose image cannot be decoded asks nothing of the pipeline and
        shows "Failed to load image." in place of the placeholder. */
    method RequestResponseFromModel(prompt: string, imageUris: seq<Uri>, openFailure: Option<Failure>,
                                    decoded: bool, deltas: seq<string>, outcome: Reply, env: R.MultimodalEnv)
      returns (escaped: Option<Failure>)
      modifies this, pipeline
      ensures OpenThrows(imageUris, openFailure) ==>
                escaped == openFailure && messages == old(messages) && streamingText == old(streamingText)
                && pipeline.calls == old(pipeline.calls) && pipeline.backendOpen == old(pipeline.backendOpen)
      ensures !OpenThrows(imageUris, openFailure) ==>
                messages == AfterModel(old(messages), old(streamingText), imageUris, decoded, deltas)
      ensures !OpenThrows(imageUris, openFailure) && ImageFailed(imageUris, decoded) ==>
                escaped == None && streamingText == old(streamingText)
                && pipeline.calls == old(pipeline.calls) && pipeline.backendOpen == old(pipeline.backendOpen)
      ensures !OpenThrows(imageUris, openFailure) && !ImageFailed(imageUris, decoded) ==>
                escaped == Escaping(GenerationReply(imageUris, outcome, env))
                && streamingText == old(streamingText) + Concat(deltas)
                && pipeline.calls == old(pipeline.calls) + GenerationCalls(prompt, imageUris, env)
                && pipeline.backendOpen == BackendAfter(old(pipeline.backendOpen), imageUris, env)
    {
      if OpenThrows(imageUris, openFailure) {
        escaped := openFailure;
      } else if ImageFailed(imageUris, decoded) {
        UpdateLastMessage(Model, ImageLoadFailure);
        escaped := None;
      } else {
        var reply := Generate(prompt, imageUris, deltas, outcome, env);
        escaped := Escaping(reply);
      }
    }
  }
}
