/**
 * The values exchanged with a client: content items, tool results, tool
 * descriptors and the protocol errors a handler raises.
 */
module Protocol {
  import opened Schema

  /** The two error kinds a tool call can raise. */
  datatype ErrorCode = InvalidParams | MethodNotFound {
    /** The numeric code sent on the wire, as fixed by section 5.1 of the JSON-RPC 2.0 specification. */
    function Code(): (c: int)
      ensures -32768 <= c <= -32000
      ensures c == -32602 <==> this == InvalidParams
      ensures c == -32601 <==> this == MethodNotFound
    {
      match this
      case InvalidParams => -32602
      case MethodNotFound => -32601
    }
  }

  datatype ProtocolError = ProtocolError(code: ErrorCode, message: string)

  /** One tagged unit of a result's payload; `kind` is the `type` member on the wire. */
  datatype ContentItem = ContentItem(kind: string, text: string)

  datatype ToolResult = ToolResult(content: seq<ContentItem>)

  /** A tool as listed to clients. The schema is the value the validator checks arguments against. */
  datatype ToolDescriptor = ToolDescriptor(name: string, description: string, inputSchema: ObjectSchema)

  datatype ListToolsResult = ListToolsResult(tools: seq<ToolDescriptor>)
}
