/** Renderer dispatch (index.ts): the module-level default renderer and
    "show JSON" flag, the registry read by tool name, the two setters and
    renderTool. */
module Tools {
  import opened JsValues
  import opened ToolTypes
  import DefaultRenderer

  /** A renderer's render(params, result, isStreaming, toolName). */
  type RenderFn = (Value, Option<ToolResult>, bool, Option<string>) -> RenderResult

  /** A tool renderer: the generic DefaultRenderer, or a tool-specific one
      whose rendering is opaque. */
  datatype ToolRenderer = DefaultJsonRenderer | Custom(render: RenderFn)

  /** renderer.render(params, result, isStreaming, toolName). */
  function Invoke(renderer: ToolRenderer, codec: Codec, params: Value, result: Option<ToolResult>,
                  isStreaming: bool, toolName: Option<string>): RenderResult
  {
    match renderer
    case DefaultJsonRenderer => DefaultRenderer.Render(codec, params, result, isStreaming, toolName)
    case Custom(render) => render(params, result, isStreaming, toolName)
  }

  /** The module state that renderTool reads: the current default
      renderer, the show-JSON flag and the registry of tool-specific
      renderers. */
  class RenderingState {
    var defaultRenderer: ToolRenderer
    var showJsonMode: bool
    var registry: map<string, ToolRenderer>

    /** Module initialisation: a DefaultRenderer as default and JSON mode
        off. `registered` is the registry as the load-time registrations
        left it. */
    constructor (registered: map<string, ToolRenderer>)
      ensures defaultRenderer.DefaultJsonRenderer?
      ensures !showJsonMode
      ensures registry == registered
    {
      defaultRenderer := DefaultJsonRenderer;
      showJsonMode := false;
      registry := registered;
    }

    /** setDefaultRenderer: replaces the default renderer and nothing else. */
    method SetDefaultRenderer(renderer: ToolRenderer)
      modifies this`defaultRenderer
      ensures defaultRenderer == renderer
      ensures showJsonMode == old(showJsonMode) && registry == old(registry)
    {
      defaultRenderer := renderer;
    }

    /** setShowJsonMode: sets the flag and nothing else. */
    method SetShowJsonMode(enabled: bool)
      modifies this`showJsonMode
      ensures showJsonMode == enabled
      ensures defaultRenderer == old(defaultRenderer) && registry == old(registry)
    {
      showJsonMode := enabled;
    }

    /** renderTool: in JSON mode the default renderer; otherwise the
        renderer registered for the tool, or the default one. The chosen
        renderer gets the arguments unchanged and its result is returned
        as it is. Being a function, it changes no state. */
    function RenderTool(codec: Codec, toolName: string, params: Value, result: Option<ToolResult>,
                        isStreaming: bool): (r: RenderResult)
      reads this
      ensures showJsonMode ==>
        r == Invoke(defaultRenderer, codec, params, result, isStreaming, Some(toolName))
      ensures !showJsonMode && toolName in registry ==>
        r == Invoke(registry[toolName], codec, params, result, isStreaming, Some(toolName))
      ensures !showJsonMode && toolName !in registry ==>
        r == Invoke(defaultRenderer, codec, params, result, isStreaming, Some(toolName))
    {
      if showJsonMode then
        Invoke(defaultRenderer, codec, params, result, isStreaming, Some(toolName))
      else if toolName in registry then
        Invoke(registry[toolName], codec, params, result, isStreaming, Some(toolName))
      else
        Invoke(defaultRenderer, codec, params, result, isStreaming, Some(toolName))
    }
  }

  /** In JSON mode the registry plays no part: two states that agree on
      the default renderer render every tool alike, whatever each has
      registered. */
  lemma JsonModeIgnoresRegistry(s1: RenderingState, s2: RenderingState, codec: Codec, toolName: string,
                                params: Value, result: Option<ToolResult>, isStreaming: bool)
    requires s1.showJsonMode && s2.showJsonMode
    requires s1.defaultRenderer == s2.defaultRenderer
    ensures s1.RenderTool(codec, toolName, params, result, isStreaming)
         == s2.RenderTool(codec, toolName, params, result, isStreaming)
  {
  }

  /** With the built-in default renderer, JSON mode gives every tool, even
      one with a registered renderer, a generic (non-custom) view whose
      header state is derived from the result and streaming flag. */
  lemma JsonModeShowsDefaultView(s: RenderingState, codec: Codec, toolName: string,
                                 params: Value, result: Option<ToolResult>, isStreaming: bool)
    requires s.showJsonMode && s.defaultRenderer.DefaultJsonRenderer?
    ensures var r := s.RenderTool(codec, toolName, params, result, isStreaming);
      && !r.isCustom && !r.content.Markup?
      && r.content.state == DefaultRenderer.DeriveState(result, isStreaming)
  {
  }
}
