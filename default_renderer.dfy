/** The generic tool renderer (DefaultRenderer.render): it derives the
    header state, the label, the parameter text and the output text, and
    picks one of four shapes. Every step is a total function of the inputs;
    parse and serialisation failures fall back instead of propagating. */
module DefaultRenderer {
  import opened JsValues
  import opened ToolTypes

  /** Localised placeholder shown when a result has no text output. */
  const NoOutputLabel := "(no output)"

  /** Label used when neither a description nor a tool name is available. */
  const ToolCallLabel := "Tool Call"

  // ---------------------------------------------------------------------
  // Header state
  // ---------------------------------------------------------------------

  /** The result's own error flag or the one nested in its details. */
  predicate HasErrorFlag(result: ToolResult) {
    result.isError || (result.details.Some? && result.details.value.isError)
  }

  /** The header state. A present result decides it alone; without one,
      streaming means in progress and anything else is shown as complete
      (there is no "pending" state). */
  function DeriveState(result: Option<ToolResult>, isStreaming: bool): (s: State)
    ensures s == Error <==> result.Some? && HasErrorFlag(result.value)
    ensures s == InProgress <==> result.None? && isStreaming
    ensures s == Complete <==> (result.Some? && !HasErrorFlag(result.value)) || (result.None? && !isStreaming)
  {
    if result.Some? then
      if HasErrorFlag(result.value) then Error else Complete
    else if isStreaming then InProgress
    else Complete
  }

  // ---------------------------------------------------------------------
  // Label
  // ---------------------------------------------------------------------

  /** parsedParams: a string parameter parsed as JSON, any other truthy
      parameter as it is; None stands for null (falsy parameters or a
      parse error). */
  function ParsedParams(codec: Codec, params: Value): Option<Json> {
    if !IsTruthy(params) then None
    else match params.json
      case JString(s) => codec.parse(s)
      case _ => Some(params.json)
  }

  /** parsedParams?.description: only an object carries a description. */
  function Description(codec: Codec, params: Value): Option<Json> {
    match ParsedParams(codec, params)
    case Some(JObject(fields)) => if "description" in fields then Some(fields["description"]) else None
    case _ => None
  }

  /** `${toolName}`: an absent tool name prints as "undefined". */
  function NameText(toolName: Option<string>): string {
    if toolName.Some? then toolName.value else "undefined"
  }

  /** The header label: "<toolName>: <description>" for a truthy
      description, else the tool name, else "Tool Call". Never empty. */
  function DisplayName(codec: Codec, params: Value, toolName: Option<string>): (r: string)
    ensures r != ""
    ensures Description(codec, params).Some? && Truthy(Description(codec, params).value) ==>
      r == NameText(toolName) + ": " + ToText(Description(codec, params).value)
    ensures !(Description(codec, params).Some? && Truthy(Description(codec, params).value)) ==>
      r == if toolName.Some? && toolName.value != "" then toolName.value else ToolCallLabel
  {
    var description := Description(codec, params);
    if description.Some? && Truthy(description.value) then
      NameText(toolName) + ": " + ToText(description.value)
    else if toolName.Some? && toolName.value != "" then toolName.value
    else ToolCallLabel
  }

  /** A string parameter that does not parse carries no description: the
      label falls back to the tool name or "Tool Call". */
  lemma UnparsableStringHasNoDescription(codec: Codec, s: string, toolName: Option<string>)
    requires codec.parse(s) == None
    ensures DisplayName(codec, Present(JString(s)), toolName)
         == if toolName.Some? && toolName.value != "" then toolName.value else ToolCallLabel
  {
  }

  /** Parameters '{"description":"list files"}' for tool "bash" are
      labelled "bash: list files". */
  lemma DescriptionLabelExample(codec: Codec)
    requires codec.parse("{\"description\":\"list files\"}")
          == Some(JObject(map["description" := JString("list files")]))
    ensures DisplayName(codec, Present(JString("{\"description\":\"list files\"}")), Some("bash"))
         == "bash: list files"
  {
  }

  // ---------------------------------------------------------------------
  // Parameter text
  // ---------------------------------------------------------------------

  /** The first tier: JSON.parse(String(params)) serialised again; None
      where either call throws. */
  function Reserialised(codec: Codec, j: Json): Option<string> {
    match codec.parse(ToText(j))
    case Some(parsed) => codec.stringify(parsed)
    case None => None
  }

  /** paramsJson: "" for falsy parameters; otherwise the first of three
      tiers that does not throw: re-serialise JSON.parse(String(params)),
      serialise the raw parameters, String(params). */
  function ParamsText(codec: Codec, params: Value): (r: string)
    ensures !IsTruthy(params) ==> r == ""
    ensures IsTruthy(params) && Reserialised(codec, params.json).Some? ==>
      r == Reserialised(codec, params.json).value
    ensures IsTruthy(params) && Reserialised(codec, params.json).None? && codec.stringify(params.json).Some? ==>
      r == codec.stringify(params.json).value
    ensures IsTruthy(params) && Reserialised(codec, params.json).None? && codec.stringify(params.json).None? ==>
      r == ToText(params.json)
  {
    if !IsTruthy(params) then ""
    else if Reserialised(codec, params.json).Some? then Reserialised(codec, params.json).value
    else if codec.stringify(params.json).Some? then codec.stringify(params.json).value
    else ToText(params.json)
  }

  /** With a lawful codec the parameter text of truthy parameters is always
      JSON text, so the String(params) tier is never reached. */
  lemma ParamsTextIsJson(codec: Codec, params: Value)
    requires Lawful(codec)
    requires IsTruthy(params)
    ensures codec.parse(ParamsText(codec, params)).Some?
  {
  }

  /** A non-empty string parameter that is not JSON is shown as the JSON
      encoding of that string (the second tier), not as the raw text. */
  lemma NonJsonStringIsEncoded(codec: Codec, s: string)
    requires Lawful(codec)
    requires s != "" && codec.parse(s) == None
    ensures ParamsText(codec, Present(JString(s))) != s
    ensures codec.parse(ParamsText(codec, Present(JString(s)))) == Some(JString(s))
  {
  }

  /** A plain object is shown as its own serialisation: String(...) turns
      it into "[object Object]", which is not JSON, so the first tier fails
      and the second tier serialises the object itself. */
  lemma ObjectParamSerialised(codec: Codec, fields: map<string, Json>)
    requires Lawful(codec)
    requires codec.parse("[object Object]") == None
    ensures ParamsText(codec, Present(JObject(fields))) == codec.stringify(JObject(fields)).value
    ensures codec.parse(ParamsText(codec, Present(JObject(fields)))) == Some(JObject(fields))
  {
  }

  /** The first tier parses String(params) even when the parameters are not
      a string: the one-element array [7] is shown as the number 7, not as
      the array. */
  lemma ArrayParamShownAsElement(codec: Codec)
    requires Lawful(codec)
    requires codec.parse("7") == Some(JNumber(7))
    ensures ParamsText(codec, Present(JArray([JNumber(7)]))) == codec.stringify(JNumber(7)).value
    ensures codec.parse(ParamsText(codec, Present(JArray([JNumber(7)])))) != Some(JArray([JNumber(7)]))
  {
  }

  // ---------------------------------------------------------------------
  // Output text
  // ---------------------------------------------------------------------

  /** content.filter(type === "text").map(text): the texts of the text
      items, in order. */
  function TextsOf(items: seq<ContentItem>): (texts: seq<string>)
    ensures |texts| <= |items|
    ensures forall t :: t in texts <==> TextContent(t) in items
  {
    if items == [] then []
    else
      assert items == [items[0]] + items[1..];
      (if items[0].TextContent? then [items[0].text] else []) + TextsOf(items[1..])
  }

  /** Filtering keeps the order of the items. */
  lemma {:induction false} TextsOfAppend(a: seq<ContentItem>, b: seq<ContentItem>)
    ensures TextsOf(a + b) == TextsOf(a) + TextsOf(b)
  {
    if a == [] {
      assert a + b == b;
    } else {
      assert (a + b)[1..] == a[1..] + b;
      TextsOfAppend(a[1..], b);
    }
  }

  /** The output text: the text items joined by newlines, or the
      placeholder when content is absent or that join is empty (no text
      item, or a single empty one). Never empty. */
  function OutputText(content: Option<seq<ContentItem>>): (r: string)
    ensures r != ""
    ensures content.None? || TextsOf(content.value) == [] || TextsOf(content.value) == [""] ==>
      r == NoOutputLabel
    ensures content.Some? && TextsOf(content.value) != [] && TextsOf(content.value) != [""] ==>
      r == Join(TextsOf(content.value), "\n")
  {
    match content
    case None => NoOutputLabel
    case Some(items) =>
      var joined := Join(TextsOf(items), "\n");
      if joined != "" then joined else NoOutputLabel
  }

  /** Every text item shows in the output, in order, each followed by a
      newline except the last, which ends the output. */
  lemma OutputShowsTextItems(items: seq<ContentItem>, k: nat)
    requires TextsOf(items) != [""]
    requires k < |TextsOf(items)|
    ensures var texts, out := TextsOf(items), OutputText(Some(items));
      && Offset(texts, "\n", k) + |texts[k]| <= |out|
      && out[Offset(texts, "\n", k)..Offset(texts, "\n", k) + |texts[k]|] == texts[k]
      && (k + 1 < |texts| ==>
            Offset(texts, "\n", k) + |texts[k]| < |out| && out[Offset(texts, "\n", k) + |texts[k]|] == '\n')
      && (k + 1 == |texts| ==> Offset(texts, "\n", k) + |texts[k]| == |out|)
  {
    var texts := TextsOf(items);
    var out := Join(texts, "\n");
    assert OutputText(Some(items)) == out;
    JoinPlacesPart(texts, "\n", k);
    if k + 1 < |texts| {
      JoinPlacesSeparator(texts, "\n", k);
      var o := Offset(texts, "\n", k) + |texts[k]|;
      assert out[o..o + 1] == "\n";
    }
  }

  /** outputJson and outputLanguage: text that parses (and re-serialises)
      is shown re-serialised as JSON; anything else is shown unchanged as
      plain text. */
  function FormatOutput(codec: Codec, text: string): (r: CodeBlock)
    ensures r.language == JsonLanguage <==>
      codec.parse(text).Some? && codec.stringify(codec.parse(text).value).Some?
    ensures r.language == JsonLanguage ==> r.code == codec.stringify(codec.parse(text).value).value
    ensures r.language == TextLanguage ==> r.code == text
  {
    match codec.parse(text)
    case Some(parsed) =>
      (match codec.stringify(parsed)
       case Some(pretty) => CodeBlock(pretty, JsonLanguage)
       case None => CodeBlock(text, TextLanguage))
    case None => CodeBlock(text, TextLanguage)
  }

  /** With a lawful codec the output is tagged JSON exactly when it parses,
      and the shown JSON denotes the same value as the original text. */
  lemma FormatOutputLawful(codec: Codec, text: string)
    requires Lawful(codec)
    ensures FormatOutput(codec, text).language == JsonLanguage <==> codec.parse(text).Some?
    ensures FormatOutput(codec, text).language == JsonLanguage ==>
      codec.parse(FormatOutput(codec, text).code) == codec.parse(text)
  {
  }

  /** Formatting is idempotent: formatting already formatted output again
      changes neither the text nor the language. */
  lemma FormatOutputIdempotent(codec: Codec, text: string)
    requires Lawful(codec)
    ensures FormatOutput(codec, FormatOutput(codec, text).code) == FormatOutput(codec, text)
  {
  }

  // ---------------------------------------------------------------------
  // Shape
  // ---------------------------------------------------------------------

  /** Parameter text that means "nothing to show yet" while streaming. */
  predicate IsPlaceholderParams(text: string) {
    text == "" || text == "{}" || text == "null"
  }

  /** DefaultRenderer.render: the four shapes in priority order, with the
      derived state, label, parameter text and output; never custom. */
  function Render(codec: Codec, params: Value, result: Option<ToolResult>, isStreaming: bool,
                  toolName: Option<string>): (r: RenderResult)
    ensures !r.isCustom && !r.content.Markup?
    ensures r.content.state == DeriveState(result, isStreaming)
    ensures r.content.ResultView? <==> result.Some?
    ensures r.content.PreparingParams? <==>
      result.None? && IsTruthy(params) && isStreaming && IsPlaceholderParams(ParamsText(codec, params))
    ensures r.content.InputOnly? <==>
      result.None? && IsTruthy(params) && !(isStreaming && IsPlaceholderParams(ParamsText(codec, params)))
    ensures r.content.PreparingTool? <==> result.None? && !IsTruthy(params)
    ensures r.content.ResultView? ==>
      && r.content.displayName == DisplayName(codec, params, toolName)
      && r.content.inputSection == (if ParamsText(codec, params) == "" then None else Some(ParamsText(codec, params)))
      && r.content.output == FormatOutput(codec, OutputText(result.value.content))
    ensures r.content.InputOnly? ==>
      r.content.displayName == DisplayName(codec, params, toolName) && r.content.input == ParamsText(codec, params)
  {
    var state := DeriveState(result, isStreaming);
    var name := DisplayName(codec, params, toolName);
    var paramsJson := ParamsText(codec, params);
    if result.Some? then
      var input := if paramsJson != "" then Some(paramsJson) else None;
      RenderResult(ResultView(state, name, input, FormatOutput(codec, OutputText(result.value.content))), false)
    else if IsTruthy(params) then
      if isStreaming && IsPlaceholderParams(paramsJson) then RenderResult(PreparingParams(state), false)
      else RenderResult(InputOnly(state, name, paramsJson), false)
    else
      RenderResult(PreparingTool(state), false)
  }
}
