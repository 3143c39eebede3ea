/**
 * `AppScreen.kt`: the status line of `StatusIndicators` (one indicator
 * chosen by priority, with the recording time written out), the enabled
 * state of the send button, and the `onSendClick` handler of the message
 * composer.
 *
 * Icons, colours other than the indicator's tone, focus handling and layout
 * are left out.
 */
module AppScreen {
  import opened Text
  import opened Outcomes
  import Chat

  // ---------------------------------------------------------------------
  // The recording time
  // ---------------------------------------------------------------------

  /** Kotlin `Long` division: the quotient rounded toward zero. */
  function Quot(a: int, b: int): int
    requires b > 0
  {
    if a >= 0 then a / b else -((-a) / b)
  }

  /** Kotlin `Long` remainder: it takes the sign of the dividend. */
  function Rem(a: int, b: int): (r: int)
    requires b > 0
    ensures a == b * Quot(a, b) + r
    ensures a >= 0 ==> 0 <= r < b
    ensures a < 0 ==> -b < r <= 0
  {
    a - b * Quot(a, b)
  }

  /** The three numbers `StatusIndicators` derives from the recording
      duration in milliseconds. */
  datatype Clock = Clock(seconds: int, minutes: int, remainingSeconds: int)

  function ClockOf(durationMs: int): (c: Clock)
    ensures c.seconds == 60 * c.minutes + c.remainingSeconds
    ensures durationMs >= 0 ==>
              && 1000 * c.seconds <= durationMs < 1000 * (c.seconds + 1)
              && 0 <= c.remainingSeconds < 60 && c.minutes >= 0
    ensures durationMs < 0 ==> c.seconds <= 0 && c.minutes <= 0 && -60 < c.remainingSeconds <= 0
  {
    var seconds := Quot(durationMs, 1000);
    Clock(seconds, Quot(seconds, 60), Rem(seconds, 60))
  }

  /** The time shown while recording: "m:ss (s sec)" from the first whole
      minute on, "r sec" before it. */
  function DurationText(durationMs: int): string {
    var c := ClockOf(durationMs);
    if c.minutes > 0 then
      IntToDecimal(c.minutes) + ":" + TwoDigits(c.remainingSeconds) + " (" + IntToDecimal(c.seconds) + " sec)"
    else
      IntToDecimal(c.remainingSeconds) + " sec"
  }

  predicate AllDigits(s: string) {
    forall i :: 0 <= i < |s| ==> IsDigit(s[i])
  }

  /** From one minute on, the text reads back as the recording time: the
      minutes before the colon and the two-digit seconds after it make up
      the whole seconds, which the parenthesis repeats. `k` is the position
      of the colon. */
  lemma LongDurationReadsBack(durationMs: int) returns (k: nat)
    requires durationMs >= 60000
    ensures var t := DurationText(durationMs);
      && k + 5 <= |t| - 5 && t[k] == ':' && t[k + 3..k + 5] == " (" && t[|t| - 5..] == " sec)"
      && AllDigits(t[..k]) && AllDigits(t[k + 1..k + 3]) && AllDigits(t[k + 5..|t| - 5])
      && DecimalValue(t[k + 1..k + 3]) < 60
      && 60 * DecimalValue(t[..k]) + DecimalValue(t[k + 1..k + 3]) == durationMs / 1000
      && DecimalValue(t[k + 5..|t| - 5]) == durationMs / 1000
  {
    var c := ClockOf(durationMs);
    assert c.seconds == durationMs / 1000 && c.minutes == c.seconds / 60 && c.remainingSeconds == c.seconds % 60;
    assert c.minutes > 0;
    var m, r, s := NatToDecimal(c.minutes), TwoDigits(c.remainingSeconds), NatToDecimal(c.seconds);
    DecimalRoundTrip(c.minutes);
    DecimalRoundTrip(c.seconds);
    TwoDigitsRoundTrip(c.remainingSeconds);
    k := ClockTextParts(m, r, s);
  }

  /** Where the parts of "m:ss (s sec)" sit. */
  lemma ClockTextParts(m: string, r: string, s: string) returns (k: nat)
    requires |r| == 2
    ensures var t := m + ":" + r + " (" + s + " sec)";
      && k == |m| && k + 5 <= |t| - 5 && t[k] == ':' && t[k + 3..k + 5] == " (" && t[|t| - 5..] == " sec)"
      && t[..k] == m && t[k + 1..k + 3] == r && t[k + 5..|t| - 5] == s
  {
    k := |m|;
    var t := m + ":" + r + " (" + s + " sec)";
    assert t[..k] == m;
    assert t[k + 1..k + 3] == r;
    assert t[k + 5..|t| - 5] == s;
  }

  /** Under a minute, the text is the whole seconds followed by " sec". */
  lemma ShortDurationReadsBack(durationMs: int)
    requires 0 <= durationMs < 60000
    ensures var t := DurationText(durationMs);
      && |t| > 4 && t[|t| - 4..] == " sec" && AllDigits(t[..|t| - 4])
      && DecimalValue(t[..|t| - 4]) == durationMs / 1000
  {
    var c := ClockOf(durationMs);
    DecimalRoundTrip(c.seconds);
    var t := DurationText(durationMs);
    assert t == NatToDecimal(c.seconds) + " sec";
    assert t[..|t| - 4] == NatToDecimal(c.seconds);
  }

  // ---------------------------------------------------------------------
  // The status line
  // ---------------------------------------------------------------------

  /** The screen flags `StatusIndicators` is given. */
  datatype Flags = Flags(isLlmInitializing: bool, isLlmInitialized: bool, llmInitializationError: Option<string>,
                         isRecording: bool, recordingDuration: int, transcriptionInProgress: bool,
                         isTranslating: bool)

  datatype Status = Recording | Converting | Translating | Loading | LoadFailed

  datatype Tone = ErrorTone | PrimaryTone | SecondaryTone

  /** What one indicator shows: its text, whether a spinner turns, and its
      colour. */
  datatype StatusLine = StatusLine(text: string, showProgress: bool, tone: Tone)

  /** `StatusIndicators`: the first of its branches whose condition holds. */
  function StatusOf(f: Flags): Option<Status> {
    if f.isRecording then Some(Recording)
    else if f.transcriptionInProgress then Some(Converting)
    else if f.isTranslating then Some(Translating)
    else if f.isLlmInitializing && !f.isLlmInitialized then Some(Loading)
    else if f.llmInitializationError.Some? && !f.isLlmInitializing then Some(LoadFailed)
    else None
  }

  function Line(f: Flags, s: Status): StatusLine {
    match s
    case Recording => StatusLine("Recording... " + DurationText(f.recordingDuration), false, ErrorTone)
    case Converting => StatusLine("Converting to text...", true, PrimaryTone)
    case Translating => StatusLine("Translating...", true, PrimaryTone)
    case Loading => StatusLine("Loading AI model...", true, SecondaryTone)
    case LoadFailed => StatusLine("AI model failed to load", false, ErrorTone)
  }

  /** The condition under which each indicator is wanted, on its own. */
  predicate Wants(f: Flags, s: Status) {
    match s
    case Recording => f.isRecording
    case Converting => f.transcriptionInProgress
    case Translating => f.isTranslating
    case Loading => f.isLlmInitializing && !f.isLlmInitialized
    case LoadFailed => f.llmInitializationError.Some? && !f.isLlmInitializing
  }

  /** Recording first, then transcription, translation, loading, failure. */
  function Rank(s: Status): nat {
    match s
    case Recording => 0
    case Converting => 1
    case Translating => 2
    case Loading => 3
    case LoadFailed => 4
  }

  /** At most one indicator is shown: the wanted one of highest priority,
      and none when no indicator is wanted. In particular "Loading" shows
      only while the model is initializing and not yet initialized, and the
      failure only when there is an error and no initialization under way. */
  lemma StatusByPriority(f: Flags, s: Status)
    ensures StatusOf(f) == Some(s) <==> Wants(f, s) && forall t: Status :: Rank(t) < Rank(s) ==> !Wants(f, t)
    ensures StatusOf(f) == None <==> forall t: Status :: !Wants(f, t)
  {
    if StatusOf(f) == None {
      forall t: Status
        ensures !Wants(f, t)
      {
        match t
        case Recording =>
        case Converting =>
        case Translating =>
        case Loading =>
        case LoadFailed =>
      }
    } else if !Wants(f, s) || exists t: Status :: Rank(t) < Rank(s) && Wants(f, t) {
      assert Wants(f, StatusOf(f).value);
    } else {
      assert !Wants(f, Recording) ==> !Wants(f, Converting) || Rank(s) <= 1;
    }
    assert Wants(f, Recording) ==> StatusOf(f).Some?;
    assert Wants(f, Converting) ==> StatusOf(f).Some?;
    assert Wants(f, Translating) ==> StatusOf(f).Some?;
    assert Wants(f, Loading) ==> StatusOf(f).Some?;
    assert Wants(f, LoadFailed) ==> StatusOf(f).Some?;
  }

  // ---------------------------------------------------------------------
  // Sending
  // ---------------------------------------------------------------------

  /** The guard of `onSendClick`: some text, or an attached image. */
  predicate HasContent(text: string, selectedImageUris: seq<Chat.Uri>) {
    !IsBlank(text) || selectedImageUris != []
  }

  /** The send button's `enabled`: content to send, and a model that is
      initialized without error. */
  predicate SendEnabled(text: string, selectedImageUris: seq<Chat.Uri>, isLlmInitialized: bool,
                        llmInitializationError: Option<string>) {
    HasContent(text, selectedImageUris) && isLlmInitialized && llmInitializationError.None?
  }

  /** What a click hands on: the text to the submit callback when there is
      one, otherwise the text and images to `requestResponse`, a call that
      is skipped (`Dropped`) when there is no view model. */
  datatype Sent = Submitted(text: string) | Requested(text: string, imageUris: seq<Chat.Uri>) | Dropped(text: string)

  /** The outcome of one click: what it hands on, the text field after it,
      and the images it hands to `onClearImage` one by one. */
  datatype ClickResult = ClickResult(sent: Option<Sent>, text: string, cleared: seq<Chat.Uri>)

  /** `onSendClick`: with content, hand it on, clear the images when they
      went to `requestResponse`, and empty the text field; without content,
      nothing happens. */
  function Click(text: string, selectedImageUris: seq<Chat.Uri>, hasSubmitCallback: bool, hasViewModel: bool)
    : (c: ClickResult)
    ensures c.sent.Some? <==> HasContent(text, selectedImageUris)
    ensures c.sent.Some? ==> c.text == "" && c.sent.value.text == text
    ensures c.sent.None? ==> c.text == text && c.cleared == []
    ensures c.sent.Some? ==> (c.sent.value.Submitted? <==> hasSubmitCallback)
    ensures c.sent.Some? && !hasSubmitCallback ==>
              c.cleared == selectedImageUris && (c.sent.value.Requested? <==> hasViewModel)
    ensures c.sent.Some? && c.sent.value.Requested? ==> c.sent.value.imageUris == selectedImageUris
  {
    if HasContent(text, selectedImageUris) then
      if hasSubmitCallback then ClickResult(Some(Submitted(text)), "", [])
      else if hasViewModel then ClickResult(Some(Requested(text, selectedImageUris)), "", selectedImageUris)
      else ClickResult(Some(Dropped(text)), "", selectedImageUris)
    else ClickResult(None, text, [])
  }

  /** The images still selected after a click, when `onClearImage` removes
      each image it is handed from the selection. */
  function Remaining(selectedImageUris: seq<Chat.Uri>, cleared: seq<Chat.Uri>): (left: seq<Chat.Uri>)
    ensures |left| <= |selectedImageUris|
    ensures forall u :: u in left <==> u in selectedImageUris && u !in cleared
  {
    if selectedImageUris == [] then []
    else
      var rest := Remaining(selectedImageUris[1..], cleared);
      if selectedImageUris[0] in cleared then rest else [selectedImageUris[0]] + rest
  }

  /** The composer's text field. */
  class Composer {
    var text: string

    constructor ()
      ensures text == ""
    {
      text := "";
    }

    /** `onSendClick`; `cleared` are the images handed to `onClearImage`. */
    method OnSendClick(selectedImageUris: seq<Chat.Uri>, hasSubmitCallback: bool, hasViewModel: bool)
      returns (sent: Option<Sent>, cleared: seq<Chat.Uri>)
      modifies this
      ensures ClickResult(sent, text, cleared) == Click(old(text), selectedImageUris, hasSubmitCallback, hasViewModel)
    {
      cleared := [];
      if !IsBlank(text) || selectedImageUris != [] {
        if hasSubmitCallback {
          sent := Some(Submitted(text));
        } else {
          sent := if hasViewModel then Some(Requested(text, selectedImageUris)) else Some(Dropped(text));
          for i := 0 to |selectedImageUris|
            invariant cleared == selectedImageUris[..i]
          {
            cleared := cleared + [selectedImageUris[i]];
          }
          assert selectedImageUris[..|selectedImageUris|] == selectedImageUris;
        }
        text := "";
      } else {
        sent := None;
      }
    }
  }

  /** The send button and the click agree: the button is enabled exactly
      when a click would send and the model is ready without error, so an
      enabled button always sends and empties the text field. A click
      itself does not ask for a ready model. After a click that sent, a
      second click sends again only with images still selected: those given
      to the submit callback stay, those handed on to `requestResponse` (or
      dropped for want of a view model) are cleared, so then it never
      sends. */
  lemma {:induction false} SendGate(text: string, selectedImageUris: seq<Chat.Uri>, isLlmInitialized: bool,
                                    llmInitializationError: Option<string>, hasSubmitCallback: bool,
                                    hasViewModel: bool)
    ensures var c := Click(text, selectedImageUris, hasSubmitCallback, hasViewModel);
      var ready := isLlmInitialized && llmInitializationError.None?;
      SendEnabled(text, selectedImageUris, isLlmInitialized, llmInitializationError) <==> c.sent.Some? && ready
    ensures var c := Click(text, selectedImageUris, hasSubmitCallback, hasViewModel);
      SendEnabled(text, selectedImageUris, isLlmInitialized, llmInitializationError) ==> c.sent.Some? && c.text == ""
    ensures var c := Click(text, selectedImageUris, hasSubmitCallback, hasViewModel);
      var left := Remaining(selectedImageUris, c.cleared);
      c.sent.Some? ==>
        && left == (if hasSubmitCallback then selectedImageUris else [])
        && (Click(c.text, left, hasSubmitCallback, hasViewModel).sent.Some? <==> hasSubmitCallback && selectedImageUris != [])
  {
    var c := Click(text, selectedImageUris, hasSubmitCallback, hasViewModel);
    if c.sent.Some? {
      RemainingAll(selectedImageUris, c.cleared);
      assert IsBlank("");
    }
  }

  /** Clearing nothing keeps every image; clearing all of them keeps none. */
  lemma {:induction false} RemainingAll(selectedImageUris: seq<Chat.Uri>, cleared: seq<Chat.Uri>)
    requires cleared == [] || cleared == selectedImageUris
    ensures Remaining(selectedImageUris, cleared) == (if cleared == [] then selectedImageUris else [])
  {
    if cleared == [] {
      RemainingNone(selectedImageUris);
    } else {
      RemainingCovered(selectedImageUris, cleared);
    }
  }

  lemma {:induction false} RemainingCovered(selectedImageUris: seq<Chat.Uri>, cleared: seq<Chat.Uri>)
    requires forall u :: u in selectedImageUris ==> u in cleared
    ensures Remaining(selectedImageUris, cleared) == []
  {
    if selectedImageUris != [] {
      assert selectedImageUris[0] in selectedImageUris;
      RemainingCovered(selectedImageUris[1..], cleared);
    }
  }

  lemma {:induction false} RemainingNone(selectedImageUris: seq<Chat.Uri>)
    ensures Remaining(selectedImageUris, []) == selectedImageUris
  {
    if selectedImageUris != [] {
      RemainingNone(selectedImageUris[1..]);
    }
  }
}
