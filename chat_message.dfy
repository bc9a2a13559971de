/** A chat message as the assistant page, the chat store and the completion
    client pass it around: a role, a text, and the metadata the store stamps
    on it. Messages built in place as `{ role, content }` carry no metadata. */
module ChatMessage {
  import opened Common

  const USER: string := "user"
  const ASSISTANT: string := "assistant"
  const SYSTEM: string := "system"

  datatype Message = Message(
    role: string,
    content: string,
    usage: Option<Object>,       // token accounting of a completion, when the service sent one
    id: Option<string>,
    timestamp: Option<string>,
    sessionId: Option<string>)

  /** The object literal `{ role, content }`. */
  function Bare(role: string, content: string): (m: Message)
    ensures m.role == role && m.content == content
    ensures m.usage.None? && m.id.None? && m.timestamp.None? && m.sessionId.None?
  {
    Message(role, content, None, None, None, None)
  }
}
