/** The Responses API stream vocabulary: output items and the events that carry them. */
module ResponsesEvents {
  import opened ChatChunks

  datatype Channel = ReasoningText | OutputText | RefusalText | Arguments

  datatype Status = InProgress | Completed | Incomplete

  /** A finished output item. `id` is the item's own synthesized id. */
  datatype Item =
    | ReasoningItem(id: nat, status: Status, text: string)
    | MessageItem(id: nat, status: Status, channel: Channel, text: string)
    | CallItem(id: nat, status: Status, callId: CallId, name: string, args: string)

  /** What `response.output_item.added` announces. */
  datatype Shell = ReasoningShell | MessageShell | CallShell(callId: CallId, name: string)

  datatype Payload =
    | Created
    | Started
    | ItemAdded(oi: nat, id: nat, shell: Shell)
    | PartAdded(oi: nat, id: nat, channel: Channel)
    | Delta(oi: nat, id: nat, channel: Channel, text: string)
    | TextDone(oi: nat, id: nat, channel: Channel, text: string)
    | PartDone(oi: nat, id: nat, channel: Channel, text: string)
    | ItemDone(oi: nat, item: Item)
    | Failed(output: seq<Item>)
    | Terminal(status: Status, output: seq<Item>)

  datatype Event = Event(seqNo: nat, payload: Payload)

  /** One entry of a chat message's `tool_calls`. */
  datatype ToolCall = ToolCall(id: CallId, name: string, args: string)

  /** The bridge's `holder["assistant_message"]`: never set, set to None, or a message. */
  datatype Holder = Unset | Blocked | Stored(content: string, toolCalls: seq<ToolCall>)
}
