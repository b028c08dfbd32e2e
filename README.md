# Tool-call rendering: default renderer and dispatch

This project models how the web UI renders a "tool call". A tool call has a tool name, parameters, an optional result and a streaming flag. Two parts are modelled:

- **`DefaultRenderer.render`** (module `DefaultRenderer`). The generic renderer derives the header state (`error`, `complete`, `inprogress`). It builds the display name from the tool name and the parameters' `description`. It formats the parameters as JSON through a three-tier fallback and joins the result's text items into the output. It tags the output as JSON or plain text and picks one of four shapes. Every step is a total function: no parse or serialisation failure escapes.
- **`renderTool` and its module state** (module `Tools`, class `RenderingState`). The state is the current default renderer, the "show JSON" flag and the registry of tool-specific renderers. The two setters are methods with `modifies` frames. `renderTool` is a function that reads the state. In JSON mode it uses the default renderer. Otherwise it uses the tool's registered renderer, or the default one when none is registered. The chosen renderer receives the arguments unchanged.

Markup is abstracted into the `Content` datatype (`tool_types.dfy`). Its variants are `ResultView`, `PreparingParams`, `InputOnly` and `PreparingTool` for the default renderer, and `Markup` for whatever a tool-specific renderer draws. `JSON.parse` and `JSON.stringify` are the two function fields of a `Codec` value, passed in as a parameter:

- `parse` is `None` where `JSON.parse` throws;
- `stringify` is `None` where `JSON.stringify` throws.

Nothing else is assumed about them in general. Each lemma names its own assumptions about the codec in its `requires`: the round-trip law `Lawful(codec)`, a specific parse result (as in `DescriptionLabelExample`), or both. `Lawful(codec)` says `stringify` never fails and `parse` reads back what `stringify` writes. Objects are maps, so the order of their keys is not modelled (see "## Left out"). JavaScript's `String(...)` conversion is defined in `JsValues.ToText` for JSON-shaped values.

## Behaviour worth noting

- `DefaultRenderer.ts:40` calls `JSON.parse(params)` on every truthy parameter, strings or not. A non-string is coerced with `String(...)` first. A one-element array such as `[7]` is therefore shown as `7` (`ArrayParamShownAsElement`).
- With no result, truthy parameters and streaming on, the "preparing parameters" header is used for the parameter texts `""`, `"{}"` and `"null"`.
- With no result and no streaming, the header state is `complete`.

## Model

| member | source | states |
|---|---|---|
| DefaultRenderer.DeriveState | packages/web-ui/src/tools/renderers/DefaultRenderer.ts:16-22 | The state is `Error` iff a result is present and its `isError` or `details.isError` is set. It is `InProgress` iff there is no result and the call is streaming. Otherwise it is `Complete`, so an idle call with no result is `Complete` and never pending. |
| DefaultRenderer.DisplayName | packages/web-ui/src/tools/renderers/DefaultRenderer.ts:24-34 | A truthy description gives `"<toolName>: <String(description)>"`, and an absent tool name prints as `undefined`. Otherwise the label is the tool name, or `"Tool Call"` when the name is empty or absent. The label is never empty. |
| DefaultRenderer.UnparsableStringHasNoDescription | packages/web-ui/src/tools/renderers/DefaultRenderer.ts:25-34 | A string parameter that fails to parse gives no description, so the label is the tool name or `"Tool Call"`. |
| DefaultRenderer.DescriptionLabelExample | packages/web-ui/src/tools/renderers/DefaultRenderer.ts:33-34 | When the parser reads that text as the object with description `list files`, parameters `{"description":"list files"}` for tool `bash` give the label `bash: list files`. |
| DefaultRenderer.ParamsText | packages/web-ui/src/tools/renderers/DefaultRenderer.ts:36-48 | Falsy parameters give `""`. Otherwise the first tier that does not throw wins: re-serialise the parse of `String(params)`, then serialise the raw parameters, then `String(params)`. The function is total, so no error escapes. |
| DefaultRenderer.ParamsTextIsJson | packages/web-ui/src/tools/renderers/DefaultRenderer.ts:36-48 | With a lawful codec, the parameter text of truthy parameters always parses as JSON, so the `String(params)` tier is never reached. |
| DefaultRenderer.NonJsonStringIsEncoded | packages/web-ui/src/tools/renderers/DefaultRenderer.ts:39-46 | With a lawful codec, a non-empty string parameter that is not JSON ends in the second tier. It is shown as its JSON string encoding, which differs from the raw text and parses back to that string. |
| DefaultRenderer.ObjectParamSerialised | packages/web-ui/src/tools/renderers/DefaultRenderer.ts:40-43 | With a lawful codec whose parser rejects `"[object Object]"`, a plain-object parameter fails the first tier and is shown as its own serialisation, which parses back to the object. |
| DefaultRenderer.ArrayParamShownAsElement | packages/web-ui/src/tools/renderers/DefaultRenderer.ts:40 | The first tier coerces non-string parameters with `String(...)`, so the array `[7]` is shown as the serialised number 7, which does not parse back to the array. |
| DefaultRenderer.TextsOf | packages/web-ui/src/tools/renderers/DefaultRenderer.ts:57-59 | The filter/map keeps exactly the texts of the `text` items: `t` is kept iff `TextContent(t)` is an item. There are never more texts than items. |
| DefaultRenderer.TextsOfAppend | packages/web-ui/src/tools/renderers/DefaultRenderer.ts:57-59 | The filter/map keeps item order: the texts of `a + b` are the texts of `a` followed by the texts of `b`. |
| JsValues.Join | packages/web-ui/src/tools/renderers/DefaultRenderer.ts:60 | With a non-empty separator, the join is empty iff there are no parts or the only part is empty. |
| JsValues.JoinPlacesPart | packages/web-ui/src/tools/renderers/DefaultRenderer.ts:60 | The join lays the parts out in order: part `k` sits at its offset, and the last part ends the text. |
| JsValues.JoinPlacesSeparator | packages/web-ui/src/tools/renderers/DefaultRenderer.ts:60 | Between part `k` and part `k + 1` of the join stands exactly the separator. |
| DefaultRenderer.OutputText | packages/web-ui/src/tools/renderers/DefaultRenderer.ts:56-60 | The output is never empty. It is the `"(no output)"` placeholder when content is absent, there is no text item, or the only text is empty. Otherwise it is the texts joined with newlines. |
| DefaultRenderer.OutputShowsTextItems | packages/web-ui/src/tools/renderers/DefaultRenderer.ts:56-60 | Every text item appears in the output, in order. A newline follows each one except the last, which ends the output. |
| DefaultRenderer.FormatOutput | packages/web-ui/src/tools/renderers/DefaultRenderer.ts:61-70 | The language is JSON iff the output text parses and re-serialises, and then the code is the re-serialised value. Otherwise the language is text and the code is the output text, unchanged. |
| DefaultRenderer.FormatOutputLawful | packages/web-ui/src/tools/renderers/DefaultRenderer.ts:63-70 | With a lawful codec, the output is tagged JSON iff it parses, and the shown JSON denotes the same value as the original text. |
| DefaultRenderer.FormatOutputIdempotent | packages/web-ui/src/tools/renderers/DefaultRenderer.ts:63-70 | With a lawful codec, formatting already formatted output changes neither the code nor the language. |
| DefaultRenderer.Render | packages/web-ui/src/tools/renderers/DefaultRenderer.ts:54-133 | `isCustom` is false on every path, and every shape carries the derived state. The four shapes are mutually exclusive, in priority order: (1) a present result gives the result view, with an input section only when the parameter text is non-empty; (2) truthy streaming parameters whose text is `""`, `"{}"` or `"null"` give "preparing parameters"; (3) other truthy parameters give the input-only view; (4) otherwise "preparing tool". |
| Tools.RenderingState.constructor | packages/web-ui/src/tools/index.ts:12-22 | Initially the default renderer is a `DefaultRenderer`, JSON mode is off, and the registry is the given map. |
| Tools.RenderingState.SetDefaultRenderer | packages/web-ui/src/tools/index.ts:17-19 | Replaces the default renderer only; the flag and the registry are unchanged. |
| Tools.RenderingState.SetShowJsonMode | packages/web-ui/src/tools/index.ts:28-30 | Sets the flag only; the default renderer and the registry are unchanged. |
| Tools.RenderingState.RenderTool | packages/web-ui/src/tools/index.ts:35-51 | In JSON mode the output is the default renderer's output, even for registered tools. Otherwise it is the registered renderer's output verbatim, or the default renderer's when the tool is not registered. The arguments are forwarded unchanged and in order. As a function, it modifies no state. |
| Tools.JsonModeIgnoresRegistry | packages/web-ui/src/tools/index.ts:41-44 | In JSON mode, two states with the same default renderer render every tool identically, whatever their registries hold. |
| Tools.JsonModeShowsDefaultView | packages/web-ui/src/tools/index.ts:41-44 | With the built-in default renderer in JSON mode, every tool, registered or not, gets a non-custom generic view whose state is the derived state. |

## Left out

- Lit templates, DOM refs, the `Code` icon and CSS classes are presentation only. They are abstracted into the `Content` shapes.
- `renderCollapsibleHeader` and `renderHeader` are not part of this model. Each is represented by the shape it draws.
- Registry internals (`registerToolRenderer`, `getToolRenderer`) live in renderer-registry.ts, which is not part of this model. The registry is a map read by lookup, and the constructor takes it as given. The `bash` registration at index.ts:10 is not modelled, so the model does not promise that `bash` is registered.
- `BashRenderer`, the JavaScript REPL and document-extraction renderers are opaque `Custom` render functions.
- `JSON.parse` and `JSON.stringify` internals are foreign library behaviour. They are abstract function fields of `Codec`. Each lemma names in its `requires` what it assumes about them: `Lawful`, a specific parse result, or both.
- `i18n` lookups are constant strings: `"(no output)"` is a constant, and `"Input"`, `"Output"`, `"Preparing tool parameters..."` and `"Preparing tool..."` are implied by the shapes. `"Tool Call"` is a plain literal in the source, and is a constant here too.
- JavaScript numbers are modelled as integers: fractions, NaN, infinities and -0 are left out.
- `JsValues.IntText` prints every digit: JavaScript's `String(n)` switches to exponent notation at magnitudes of 1e21 and above, and integers above 2^53 lose precision; neither is modelled.
- Strings are sequences of Unicode scalar values: JavaScript's UTF-16 strings, including lone surrogates, are not modelled. Values outside JSON (functions, cyclic objects, BigInt) are left out too. The serialisation-failure tiers are still modelled through `stringify` returning `None`.
- An omitted `isStreaming` argument is modelled as `false`. `renderTool` passes `undefined` on unchanged, which has the same truthiness, so the default renderer cannot tell the two apart; a tool-specific renderer could, and the model does not capture that.
- Codec: object key order is not modelled. `JObject` is a map, so `{"a":1,"b":2}` and `{"b":2,"a":1}` are one value. `JSON.stringify` writes keys in insertion order, with integer-like keys first, and the abstract `stringify` cannot depend on that order.
- DefaultRenderer.FormatOutput: because key order is not modelled, two output texts that differ only in key order are shown with the same code here, while `JSON.stringify` keeps each text's order.
- DefaultRenderer.ParamsText: because key order is not modelled, the serialised parameters here do not show the parameter object's insertion order.
