/**
 * The shapes exchanged between the chat page and the chat route: one entry of
 * the message log, and the JSON body the page posts to the route.
 */
module Conversation {

  /** One entry of the message log: `{ role, content, timestamp }` (timestamp in ms). */
  datatype Message = Message(role: string, content: string, timestamp: int)

  const UserRole := "user"
  const AssistantRole := "assistant"

  /** The body the page posts: `{ messages, responseRate, topic }`. */
  datatype ChatRequest = ChatRequest(messages: seq<Message>, responseRate: string, topic: string)
}
