/**
 * The parts of scr/services/geminiService.ts that do not leave the process:
 * assembling the ordered request parts for a meal (with the data-URL header
 * stripped from media payloads), the recipe prompt, and turning the outcome of
 * the remote call into a result, where an empty answer and any thrown error
 * both become "nothing". The remote call and `JSON.parse` are not modelled: the
 * outcome of the call arrives as a `Response` value.
 */
module Gemini {
  import opened Types

  /** Every field optional, as in the service's input interface. */
  datatype MultimodalInput = MultimodalInput(text: Option<string>, imageBase64: Option<string>, audioBase64: Option<string>)

  datatype Part = TextPart(text: string) | InlineData(mimeType: string, data: string)

  const DescriptionLabel: string := "Descripción: "
  const ImageMime: string := "image/jpeg"
  const AudioMime: string := "audio/webm"
  const MealInstruction: string :=
    "Analiza la comida. JSON estricto: { \"name\": string, \"calories\": number, \"protein\": number, \"carbs\": number, \"fat\": number }."

  /** JavaScript truthiness of an optional string: present and not empty. */
  predicate Given(o: Option<string>) {
    o.Some? && o.value != ""
  }

  function Flag(b: bool): nat {
    if b then 1 else 0
  }

  /** How many of the three inputs will be sent. */
  function InputCount(input: MultimodalInput): nat {
    Flag(Given(input.text)) + Flag(Given(input.imageBase64)) + Flag(Given(input.audioBase64))
  }

  /** Position of the first ',' in `s`, or `|s|` when there is none. */
  function CommaIndex(s: string): (i: nat)
    ensures i <= |s|
    ensures i < |s| ==> s[i] == ','
    ensures forall j :: 0 <= j < i ==> s[j] != ','
  {
    if s == [] then 0
    else if s[0] == ',' then 0
    else 1 + CommaIndex(s[1..])
  }

  /**
   * `s.includes(',') ? s.split(',')[1] : s`: the text between the first and
   * the second comma (or the end), which for a data URL is the payload.
   */
  function StripDataUrlPrefix(s: string): (r: string)
    ensures ',' !in s ==> r == s
    ensures ',' in s ==> ',' !in r && |r| < |s|
  {
    var i := CommaIndex(s);
    if i == |s| then s
    else
      var rest := s[i + 1..];
      var r := rest[..CommaIndex(rest)];
      assert forall k :: 0 <= k < |r| ==> r[k] != ',';
      r
  }

  /**
   * A data URL `header,payload` (possibly followed by more comma-separated
   * text) gives back exactly its payload, when neither header nor payload
   * contains a comma; base64 text never does.
   */
  lemma StripGivesPayload(header: string, payload: string, tail: string)
    requires ',' !in header && ',' !in payload
    requires tail == [] || tail[0] == ','
    ensures StripDataUrlPrefix(header + "," + payload + tail) == payload
  {
    var s := header + "," + payload + tail;
    assert forall k :: 0 <= k < |header| ==> s[k] == header[k] && s[k] != ',';
    assert s[|header|] == ',';
    var i := CommaIndex(s);
    assert i == |header|;
    var rest := s[i + 1..];
    assert rest == payload + tail;
    assert forall k :: 0 <= k < |payload| ==> rest[k] == payload[k] && rest[k] != ',';
    assert tail != [] ==> rest[|payload|] == ',';
    assert CommaIndex(rest) == |payload|;
  }

  /**
   * The `contents.parts` of the meal request: the description if there is text,
   * then the image, then the audio, each only when given, and the fixed
   * instruction last.
   */
  method AssembleRequest(input: MultimodalInput) returns (contents: seq<Part>)
    ensures |contents| == 1 + InputCount(input)
    ensures contents[|contents| - 1] == TextPart(MealInstruction)
    ensures Given(input.text) ==> contents[0] == TextPart(DescriptionLabel + input.text.value)
    ensures Given(input.imageBase64) ==>
      contents[Flag(Given(input.text))] == InlineData(ImageMime, StripDataUrlPrefix(input.imageBase64.value))
    ensures Given(input.audioBase64) ==>
      contents[Flag(Given(input.text)) + Flag(Given(input.imageBase64))]
        == InlineData(AudioMime, StripDataUrlPrefix(input.audioBase64.value))
  {
    var parts: seq<Part> := [];
    if Given(input.text) {
      parts := parts + [TextPart(DescriptionLabel + input.text.value)];
    }
    if Given(input.imageBase64) {
      var data := StripDataUrlPrefix(input.imageBase64.value);
      parts := parts + [InlineData(ImageMime, data)];
    }
    if Given(input.audioBase64) {
      var data := StripDataUrlPrefix(input.audioBase64.value);
      parts := parts + [InlineData(AudioMime, data)];
    }
    contents := parts + [TextPart(MealInstruction)];
  }

  /** What the remote call ended with: a thrown error, or answer text and what `JSON.parse` made of it. */
  datatype Response<T> = Threw | Answered(text: string, parsed: Option<T>)

  /** The meal service's result: an empty answer, a parse error and a transport error all give nothing. */
  function MealFromResponse(response: Response<MealData>): (r: Option<MealData>)
    ensures r.Some? <==> response.Answered? && response.text != "" && response.parsed.Some?
    ensures r.Some? ==> r.value == response.parsed.value
  {
    match response
    case Threw => None
    case Answered(text, parsed) => if text == "" then None else parsed
  }

  /** The recipe service's result: every failure gives the empty list, never a partial one. */
  function RecipesFromResponse(response: Response<seq<Recipe>>): (r: seq<Recipe>)
    ensures response.Threw? || response.text == "" || response.parsed.None? ==> r == []
    ensures response.Answered? && response.text != "" && response.parsed.Some? ==> r == response.parsed.value
  {
    match response
    case Threw => []
    case Answered(text, parsed) => if text == "" then [] else parsed.GetOr([])
  }

  /** The labels in order with `sep` between neighbours; no separator for none or one. */
  function Join(xs: seq<string>, sep: string): (r: string)
    ensures xs == [] ==> r == ""
    ensures |xs| == 1 ==> r == xs[0]
  {
    if xs == [] then ""
    else if |xs| == 1 then xs[0]
    else xs[0] + sep + Join(xs[1..], sep)
  }

  /** Joining one more label appends the separator and that label. */
  lemma {:induction false} JoinAppend(xs: seq<string>, x: string, sep: string)
    requires xs != []
    ensures Join(xs + [x], sep) == Join(xs, sep) + sep + x
  {
    if |xs| > 1 {
      assert (xs + [x])[1..] == xs[1..] + [x];
      JoinAppend(xs[1..], x, sep);
    }
  }

  const PromptHead: string := "Genera 4 recetas breves para: Dieta "
  const PromptTail: string := ". JSON ARRAY."

  /**
   * The recipe prompt: it opens with the diet label and the goal's name, ends
   * with the fixed tail, and just before the tail lists the health conditions
   * joined with ", ".
   */
  function RecipePrompt(profile: UserProfile): (prompt: string)
    ensures PromptHead + profile.dietType + ", Meta " + GoalName(profile.goal) + ", Salud: " <= prompt
    ensures |prompt| >= |PromptTail| && prompt[|prompt| - |PromptTail|..] == PromptTail
    ensures var conditions := Join(profile.healthConditions, ", ");
            var end := |prompt| - |PromptTail|;
            end >= |conditions| && prompt[end - |conditions|..end] == conditions
    ensures |prompt| == |PromptHead + profile.dietType + ", Meta " + GoalName(profile.goal) + ", Salud: "|
                        + |Join(profile.healthConditions, ", ")| + |PromptTail|
  {
    PromptHead + profile.dietType + ", Meta " + GoalName(profile.goal) + ", Salud: "
      + Join(profile.healthConditions, ", ") + PromptTail
  }

  /** The conditions part of the prompt grows by ", " and the label for each extra condition. */
  lemma PromptListsConditions(profile: UserProfile, c: string)
    requires profile.healthConditions != []
    ensures var more := profile.(healthConditions := profile.healthConditions + [c]);
            RecipePrompt(more)[..|RecipePrompt(more)| - |PromptTail|]
              == RecipePrompt(profile)[..|RecipePrompt(profile)| - |PromptTail|] + ", " + c
  {
    JoinAppend(profile.healthConditions, c, ", ");
  }
}
