/** The values that flow into and out of a tool renderer: the tool's result
    message and the render result, whose markup is abstracted into the
    shapes the default renderer draws. */
module ToolTypes {
  import opened JsValues

  /** One item of a tool result's content: a text item, or any item whose
      type is not "text" (an image, say). */
  datatype ContentItem = TextContent(text: string) | NonTextContent

  /** The `details` record of a result; only its error flag is read. */
  datatype Details = Details(isError: bool)

  /** A tool result message: optional content, the error flag and optional
      details. */
  datatype ToolResult = ToolResult(content: Option<seq<ContentItem>>, isError: bool, details: Option<Details>)

  /** The state a renderer shows in its header. */
  datatype State = Error | Complete | InProgress

  /** The highlighting language of a code block. */
  datatype Lang = JsonLanguage | TextLanguage

  datatype CodeBlock = CodeBlock(code: string, language: Lang)

  /** What a renderer draws. The first four are the default renderer's
      shapes; `Markup` is whatever a tool-specific renderer draws.
      - ResultView: collapsible header with the display name, then the "Input"
        block (only when `inputSection` is present, always JSON) and the "Output"
        block;
      - PreparingParams: header "Preparing tool parameters..." only;
      - InputOnly: collapsible header with the display name, then the "Input" block;
      - PreparingTool: header "Preparing tool..." only. */
  datatype Content =
    | ResultView(state: State, displayName: string, inputSection: Option<string>, output: CodeBlock)
    | PreparingParams(state: State)
    | InputOnly(state: State, displayName: string, input: string)
    | PreparingTool(state: State)
    | Markup(html: string)

  /** A render result: the content and whether the caller must not add its
      own generic wrapper. */
  datatype RenderResult = RenderResult(content: Content, isCustom: bool)
}
