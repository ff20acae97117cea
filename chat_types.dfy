/** The data model of types/chat.ts and types/api.ts and the limits of lib/constants.ts. */
module ChatTypes {
  import opened Optional

  datatype Role = User | Assistant

  /** One chat message; `isStreaming` is optional. */
  datatype Message = Message(id: string, role: Role, content: string, timestamp: int, isStreaming: Option<bool>)

  /** One conversation as the session store keeps it. */
  datatype ChatSession = ChatSession(id: string, title: string, messages: seq<Message>, createdAt: int, updatedAt: int)

  /** The reduced message sent to the chat route as history. */
  datatype ChatMessage = ChatMessage(role: Role, content: string)

  datatype ErrorCode =
    | InvalidMessage
    | MessageTooLong
    | HistoryTooLong
    | ConfigError
    | PermissionDenied
    | RateLimitExceeded
    | ApiError
    | InternalError
    | Timeout

  const MaxMessageLength: nat := 4000
  const MaxHistoryLength: nat := 10

  /** The title every new session starts with ("new conversation"). */
  const DefaultTitle: string := "새 대화"
}
