/** The Anthropic Messages stream vocabulary, wide enough for any upstream event: `extra`
    stands for the keys an event carries beyond the ones named here. */
module AnthropicEvents {
  import opened ChatChunks

  datatype Body = Plain | Tool(id: CallId, name: string) | Raw(json: string)

  /** A content block; `kind` is its `type`, "" when it has none. */
  datatype Block = Block(kind: string, body: Body)

  /** A block delta; `payload` is the text of a known delta type, `raw` the rest of it. */
  datatype Delta = Delta(kind: string, payload: string, raw: string)

  datatype Event =
    | MessageStart(extra: string)
    | BlockStart(index: int, block: Block, extra: string)
    | BlockDelta(index: int, delta: Delta, extra: string)
    | BlockStop(index: int, extra: string)
    | MessageDelta(stopReason: string, extra: string)
    | MessageStop(extra: string)
    | Error(extra: string)
    | Other(extra: string)

  const TEXT_BLOCK := Block("text", Plain)
  const THINKING_BLOCK := Block("thinking", Plain)

  function ToolBlock(id: CallId, name: string): Block {
    Block("tool_use", Tool(id, name))
  }
}
