/** Values shared by the registry, the dispatcher and the conversation loop:
    tool descriptors, the content blocks of a model response, and the
    entries of the message history. */
module Types {

  datatype Option<+T> = None | Some(value: T)

  /** One tool as stored in the registry and advertised to the model: the
      dictionary with keys "name", "description" and "input_schema" built
      from each tool an MCP server lists. Description and schema are carried
      uninterpreted. */
  datatype ToolDescriptor = ToolDescriptor(name: string, description: string, inputSchema: string)

  /** A content block of a model response, tagged by its "type". */
  datatype ContentBlock =
    | Text(text: string)
    | ToolUse(id: string, name: string, input: string)

  /** What one call to the model returns: its stop reason and its content blocks. */
  datatype Response = Response(stopReason: string, content: seq<ContentBlock>)

  datatype Role = User | Assistant

  /** A block {"type": "tool_result", "tool_use_id": ..., "content": ...}. */
  datatype ToolResultBlock = ToolResultBlock(toolUseId: string, content: string)

  /** The "content" of a history entry: a plain string, the raw content blocks
      of a response, or a list of tool-result blocks. */
  datatype Content =
    | PlainText(text: string)
    | Blocks(blocks: seq<ContentBlock>)
    | ToolResults(results: seq<ToolResultBlock>)

  /** One entry {"role": ..., "content": ...} of the message history. */
  datatype Message = Message(role: Role, content: Content)
}
