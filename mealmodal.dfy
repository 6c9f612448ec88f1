/**
 * The meal dialog of components/MealModal.tsx. Its state hooks are the fields of
 * `MealModalState`, and its handlers are the methods. The rules the handlers
 * apply are functions: when the AI submit button is disabled, and which request
 * the AI submit sends. Media capture is outside the model: the data URL that the
 * file reader or the recorder delivers arrives as a parameter.
 */
module MealModal {
  import opened Types
  import Forms
  import Gemini

  /** The characters `String.prototype.trim` removes: white space and line terminators. */
  predicate IsJsWhitespace(ch: char) {
    ch == '\t' || ch == '\n' || ch == '\U{000B}' || ch == '\U{000C}' || ch == '\r' || ch == ' '
    || ch == '\U{00A0}' || ch == '\U{1680}' || ('\U{2000}' <= ch <= '\U{200A}')
    || ch == '\U{2028}' || ch == '\U{2029}' || ch == '\U{202F}' || ch == '\U{205F}'
    || ch == '\U{3000}' || ch == '\U{FEFF}'
  }

  predicate Blank(s: string) {
    forall k :: 0 <= k < |s| ==> IsJsWhitespace(s[k])
  }

  /** Drops the leading white space: what is left is a suffix that starts with something else. */
  function TrimStart(s: string): (r: string)
    ensures |r| <= |s| && r == s[|s| - |r|..]
    ensures r != [] ==> !IsJsWhitespace(r[0])
    ensures forall k :: 0 <= k < |s| - |r| ==> IsJsWhitespace(s[k])
  {
    if s != [] && IsJsWhitespace(s[0]) then TrimStart(s[1..]) else s
  }

  /** Drops the trailing white space: what is left is a prefix that ends with something else. */
  function TrimEnd(s: string): (r: string)
    ensures |r| <= |s| && r == s[..|r|]
    ensures r != [] ==> !IsJsWhitespace(r[|r| - 1])
    ensures forall k :: |r| <= k < |s| ==> IsJsWhitespace(s[k])
  {
    if s != [] && IsJsWhitespace(s[|s| - 1]) then TrimEnd(s[..|s| - 1]) else s
  }

  /** `s.trim()`: empty exactly for blank text, and otherwise without white space at either end. */
  function Trim(s: string): (r: string)
    ensures r == "" <==> Blank(s)
    ensures r != "" ==> !IsJsWhitespace(r[0]) && !IsJsWhitespace(r[|r| - 1])
  {
    var t := TrimStart(s);
    assert forall k :: |s| - |t| <= k < |s| ==> s[k] == t[k - (|s| - |t|)];
    TrimEnd(t)
  }

  /** The AI button's `disabled`: while loading, or when there is no text (blank text counts as none), image or audio. */
  function SubmitDisabled(isLoadingAI: bool, aiInput: string, image: Option<string>, audio: Option<string>): (disabled: bool)
    ensures disabled <==> isLoadingAI || (Blank(aiInput) && !Gemini.Given(image) && !Gemini.Given(audio))
  {
    isLoadingAI || (Trim(aiInput) == "" && !Gemini.Given(image) && !Gemini.Given(audio))
  }

  /** `value || undefined` on an optional string: only a non-empty value is kept. */
  function OrUndefined(o: Option<string>): (r: Option<string>)
    ensures r.Some? <==> Gemini.Given(o)
    ensures r.Some? ==> r == o
  {
    if Gemini.Given(o) then o else None
  }

  /**
   * The input the AI submit hands to the service. The text is sent as typed:
   * whitespace-only text is sent even though it does not enable the button.
   */
  function AiRequest(aiInput: string, image: Option<string>, audio: Option<string>): (request: Gemini.MultimodalInput)
    ensures request.text.Some? <==> aiInput != ""
    ensures request.text.Some? ==> request.text.value == aiInput
    ensures request.imageBase64 == OrUndefined(image) && request.audioBase64 == OrUndefined(audio)
    ensures Gemini.InputCount(request)
      == Gemini.Flag(aiInput != "") + Gemini.Flag(Gemini.Given(image)) + Gemini.Flag(Gemini.Given(audio))
  {
    Gemini.MultimodalInput(OrUndefined(Some(aiInput)), OrUndefined(image), OrUndefined(audio))
  }

  /** Whenever the button can be pressed, the request carries at least one input besides the instruction. */
  lemma EnabledSubmitSendsInput(aiInput: string, image: Option<string>, audio: Option<string>)
    requires !SubmitDisabled(false, aiInput, image, audio)
    ensures Gemini.InputCount(AiRequest(aiInput, image, audio)) >= 1
    ensures !Blank(aiInput) ==> AiRequest(aiInput, image, audio).text == Some(aiInput)
  {
    if !Blank(aiInput) {
      assert aiInput != "";
    }
  }

  /** Whitespace-only text with a photo enables the button and is sent untrimmed. */
  lemma BlankTextIsSentWithMedia(aiInput: string, image: string)
    requires aiInput != "" && Blank(aiInput) && image != ""
    ensures !SubmitDisabled(false, aiInput, Some(image), None)
    ensures AiRequest(aiInput, Some(image), None).text == Some(aiInput)
    ensures SubmitDisabled(false, aiInput, None, None)
  {
  }

  const EmptyManualMeal: MealData := MealData("", 0.0, 0.0, 0.0, 0.0)

  /** The manual meal with one numeric field replaced. */
  function WithAmount(d: MealData, n: Nutrient, v: real): (r: MealData)
    ensures r.name == d.name
    ensures r.calories == (if n == Calories then v else d.calories)
    ensures r.protein == (if n == Protein then v else d.protein)
    ensures r.carbs == (if n == Carbs then v else d.carbs)
    ensures r.fat == (if n == Fat then v else d.fat)
  {
    match n
    case Calories => d.(calories := v)
    case Protein => d.(protein := v)
    case Carbs => d.(carbs := v)
    case Fat => d.(fat := v)
  }

  class MealModalState {
    var aiInput: string
    var capturedImage: Option<string>
    var capturedAudio: Option<string>
    var isRecording: bool
    var isLoadingAI: bool
    var adWatchCount: int
    var manualMeal: MealData

    /** The state `resetStates` leaves behind; the ad counter is not part of it. */
    predicate IsReset()
      reads this
    {
      aiInput == "" && capturedImage.None? && capturedAudio.None? && !isRecording && !isLoadingAI
      && manualMeal == EmptyManualMeal
    }

    constructor ()
      ensures IsReset() && adWatchCount == 0
    {
      aiInput := "";
      capturedImage := None;
      capturedAudio := None;
      isRecording := false;
      isLoadingAI := false;
      adWatchCount := 0;
      manualMeal := EmptyManualMeal;
    }

    /** `resetStates`, run when the dialog closes and by `resetAndClose`. */
    method ResetStates()
      modifies this
      ensures IsReset() && adWatchCount == old(adWatchCount)
    {
      aiInput := "";
      capturedImage := None;
      capturedAudio := None;
      isRecording := false;
      isLoadingAI := false;
      manualMeal := EmptyManualMeal;
    }

    /** A meal being edited pre-fills the manual form with its name and numbers; nothing else changes. */
    method PrefillFromEditing(editing: Option<Meal>)
      modifies this
      ensures editing.Some? ==> manualMeal == DataOf(editing.value)
      ensures editing.None? ==> manualMeal == old(manualMeal)
      ensures aiInput == old(aiInput) && capturedImage == old(capturedImage) && capturedAudio == old(capturedAudio)
      ensures isRecording == old(isRecording) && isLoadingAI == old(isLoadingAI) && adWatchCount == old(adWatchCount)
    {
      if editing.Some? {
        manualMeal := DataOf(editing.value);
      }
    }

    method ChangeAiInput(text: string)
      modifies this`aiInput
      ensures aiInput == text
    {
      aiInput := text;
    }

    /** The file reader delivered the chosen photo as a data URL. */
    method ImageLoaded(dataUrl: string)
      modifies this`capturedImage
      ensures capturedImage == Some(dataUrl)
    {
      capturedImage := Some(dataUrl);
    }

    /** `startRecording`: the flag is set only when the microphone could be opened. */
    method StartRecording(microphoneOpened: bool)
      modifies this`isRecording
      ensures isRecording == (microphoneOpened || old(isRecording))
    {
      if microphoneOpened {
        isRecording := true;
      }
    }

    /**
     * `stopRecording`: the flag is only ever set after a recorder was created,
     * so a set flag always finds one to stop; the flag ends up clear.
     */
    method StopRecording()
      modifies this`isRecording
      ensures !isRecording
    {
      if isRecording {
        isRecording := false;
      }
    }

    /** The recorder's `onstop` delivered the recording as a data URL. */
    method AudioLoaded(dataUrl: string)
      modifies this`capturedAudio
      ensures capturedAudio == Some(dataUrl)
    {
      capturedAudio := Some(dataUrl);
    }

    /** The ad button: loading starts at once. */
    method BeginWatchAd()
      modifies this`isLoadingAI
      ensures isLoadingAI
    {
      isLoadingAI := true;
    }

    /** Two seconds later: loading ends and one more ad has been watched. */
    method FinishWatchAd()
      modifies this`isLoadingAI, this`adWatchCount
      ensures !isLoadingAI && adWatchCount == old(adWatchCount) + 1
    {
      isLoadingAI := false;
      adWatchCount := adWatchCount + 1;
    }

    /** `handleMagicAdd` up to the service call: loading starts and the request is built from the current inputs. */
    method BeginMagicAdd() returns (request: Gemini.MultimodalInput)
      modifies this`isLoadingAI
      ensures isLoadingAI
      ensures request == AiRequest(aiInput, capturedImage, capturedAudio)
    {
      isLoadingAI := true;
      request := AiRequest(aiInput, capturedImage, capturedAudio);
    }

    /**
     * `handleMagicAdd` after the service answered: a result is saved and the
     * dialog resets and closes; no result keeps everything the user entered
     * and only ends the loading.
     */
    method CompleteMagicAdd(result: Option<MealData>) returns (saved: Option<MealData>, closed: bool)
      modifies this
      ensures saved == result && closed == result.Some?
      ensures result.Some? ==> IsReset()
      ensures result.None? ==>
        !isLoadingAI && aiInput == old(aiInput) && capturedImage == old(capturedImage) &&
        capturedAudio == old(capturedAudio) && isRecording == old(isRecording) && manualMeal == old(manualMeal)
      ensures adWatchCount == old(adWatchCount)
    {
      isLoadingAI := false;
      saved := result;
      closed := false;
      if result.Some? {
        ResetStates();
        closed := true;
      }
    }

    method ChangeManualName(name: string)
      modifies this`manualMeal
      ensures manualMeal == old(manualMeal).(name := name)
    {
      manualMeal := manualMeal.(name := name);
    }

    /** One of the four numeric inputs changed: an emptied field stores 0. */
    method ChangeManualAmount(n: Nutrient, text: string, parsed: real)
      modifies this`manualMeal
      ensures manualMeal == WithAmount(old(manualMeal), n, Forms.NumericField(text, parsed))
    {
      manualMeal := WithAmount(manualMeal, n, Forms.NumericField(text, parsed));
    }

    /** The manual form's submit: the meal as entered is saved, then the dialog resets and closes. */
    method ManualSubmit() returns (saved: MealData, closed: bool)
      modifies this
      ensures saved == old(manualMeal) && closed
      ensures IsReset() && adWatchCount == old(adWatchCount)
    {
      saved := manualMeal;
      ResetStates();
      closed := true;
    }
  }
}
