/** The Model Context Protocol records the tools exchange: a tool's
    advertised input schema (names, types, defaults and required keys; the
    prose descriptions are not modelled) and a tool call's result. */
module Mcp {
  import opened Js

  /** One property of a tool's input schema. */
  datatype SchemaProperty = SchemaProperty(name: string, kind: string, default: Option<Json>)

  /** A tool as `tools/list` advertises it. */
  datatype Tool = Tool(name: string, properties: seq<SchemaProperty>, required: seq<string>)

  /** `{ type: "text", text }` */
  datatype TextContent = TextContent(kind: string, text: string)

  /** `{ content, isError }` */
  datatype CallToolResult = CallToolResult(content: seq<TextContent>, isError: bool)

  /** The declared default of a schema property, if the property is there. */
  function DeclaredDefault(t: Tool, name: string): Option<Json> {
    DefaultIn(t.properties, name)
  }

  function DefaultIn(ps: seq<SchemaProperty>, name: string): Option<Json> {
    if |ps| == 0 then None
    else if ps[0].name == name then ps[0].default
    else DefaultIn(ps[1..], name)
  }

  /** A successful tool result: exactly one text block, not an error. */
  function TextResult(text: string): CallToolResult {
    CallToolResult([TextContent("text", text)], false)
  }
}
