/**
 * Values that stand for what the app's foreign calls (MediaPipe, the RAG
 * library, TensorFlow Lite) return or throw.
 */
module Outcomes {

  datatype Option<+T> = None | Some(value: T)

  /** A throwable escaping a foreign call: `OutOfMemoryError` (a JVM `Error`,
      not an `Exception`) or an `Exception` with its possibly-null message. */
  datatype Failure = OutOfMemory | Thrown(message: Option<string>)

  /** What a suspending generation call gives its caller: a text, or a
      throwable that propagates. */
  datatype Reply = Answer(text: string) | Raised(failure: Failure)

  /** Kotlin's `"${e.message}"`: a null message is rendered as "null". */
  function MessageText(message: Option<string>): string {
    match message
    case Some(m) => m
    case None => "null"
  }

  /** The text both translation paths show when the generation throws. */
  function TranslationFailedText(message: Option<string>): (r: string)
    ensures |r| >= |"Translation failed: "|
    ensures r[..|"Translation failed: "|] == "Translation failed: "
    ensures message.Some? ==> r[|"Translation failed: "|..] == message.value
  {
    "Translation failed: " + MessageText(message)
  }
}
