/**
 * The two incremental-output conventions found in the app. The chat screen
 * treats each streamed response as a delta and appends it
 * (`currentStreamingText += response.text`); the translation screen treats it
 * as the whole text so far and replaces (`_translatedText.value =
 * response.text`). Both are fed by the same `RagPipeline.generateResponse`
 * callback. The lemmas say when the two agree and what each shows when fed
 * the other convention.
 */
module Streaming {
  import opened Text

  /** Cumulative convention: the screen shows the latest increment. */
  function Latest(initial: string, increments: seq<string>): string {
    if increments == [] then initial else increments[|increments| - 1]
  }

  /** What a backend using the cumulative convention emits for the given
      generated pieces: the text so far, after each piece. */
  function Cumulative(deltas: seq<string>): seq<string> {
    seq(|deltas|, i requires 0 <= i < |deltas| => Concat(deltas[..i + 1]))
  }

  /** Appending deltas and replacing by cumulative texts end on the same
      text when each is fed the convention it expects. */
  lemma ConventionsAgree(deltas: seq<string>)
    ensures Concat(deltas) == Latest("", Cumulative(deltas))
  {
    if deltas != [] {
      assert deltas[..|deltas|] == deltas;
    }
  }

  lemma {:induction false} ConcatLength(parts: seq<string>, k: nat)
    requires k < |parts|
    ensures |Concat(parts)| >= |parts[k]|
    ensures |parts| >= 2 && k < |parts| - 1 ==> |Concat(parts)| >= |parts[k]| + |parts[|parts| - 1]|
    decreases |parts|
  {
    if k < |parts| - 1 {
      ConcatLength(parts[..|parts| - 1], k);
    }
  }

  /** Fed the wrong convention, a screen shows the wrong text: appending
      cumulative texts repeats the earlier ones, and replacing by deltas
      keeps only the last piece. Either way the two readings differ as soon
      as there are two increments and the first is not empty. */
  lemma ConventionsDisagree(increments: seq<string>)
    requires |increments| >= 2 && increments[0] != ""
    ensures Concat(increments) != Latest("", increments)
  {
    ConcatLength(increments, 0);
  }

  /** With the delta convention the shown text only grows: the text after i
      increments is a prefix of the text after j >= i increments. */
  lemma {:induction false} DeltasOnlyGrow(deltas: seq<string>, i: nat, j: nat)
    requires i <= j <= |deltas|
    ensures Concat(deltas[..i]) <= Concat(deltas[..j])
    decreases j - i
  {
    if i < j {
      DeltasOnlyGrow(deltas, i, j - 1);
      assert deltas[..j][..j - 1] == deltas[..j - 1];
    }
  }
}
