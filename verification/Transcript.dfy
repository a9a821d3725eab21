/** Chat-format messages, as the bridges build, store and replay them. */
module Transcript {
  import opened Wrappers
  import opened ChatChunks

  /** A part of structured content; only text parts have text. */
  datatype Part = TextPart(text: string) | OtherPart(json: string)

  /** A message's `content`: a string, a list of parts, or anything else. */
  datatype Content = Text(text: string) | Parts(parts: seq<Part>) | Junk(json: string)

  /** The arguments of a call as found: a string, or a JSON value (its dump) when not a string. */
  datatype Arguments = ArgText(text: string) | ArgJson(dump: string)

  /** One entry of `tool_calls`; `extra` stands for its other keys. An entry that is no object is
      only passed on. */
  datatype CallEntry =
    | CallEntry(id: CallId, kind: string, name: Option<string>, args: Arguments, extra: string)
    | JunkEntry(json: string)

  /** A message's role; an entry without one has the other role "". */
  datatype Role = SystemRole | UserRole | AssistantRole | ToolRole | OtherRole(name: string)

  /** A chat message. `extra` stands for its other keys. */
  datatype Message = Message(role: Role, content: Content, toolCalls: seq<CallEntry>, toolCallId: string, extra: string)

  predicate IsSystem(m: Message) {
    m.role.SystemRole?
  }

  predicate IsAssistant(m: Message) {
    m.role.AssistantRole?
  }

  predicate IsTool(m: Message) {
    m.role.ToolRole?
  }

  predicate CallsTools(m: Message) {
    IsAssistant(m) && m.toolCalls != []
  }
}
