/**
 * Conversation records as both variants store them. The two variants differ
 * only in the default of `tags`: the SQL-mode backend starts a conversation
 * with an empty tag list, the RAG-mode application with no tag list at all.
 * `created_at` comes from the clock and is an opaque timestamp here.
 */
module ConversationSchema {
  import opened Wrappers

  const UserRole: string := "user"
  const AssistantRole: string := "assistant"

  datatype Message = Message(role: string, content: string)

  datatype Conversation = Conversation(
    id: string,                   // the caller's session id, used as the key
    userId: string,
    messages: seq<Message>,
    tags: Option<seq<string>>,
    createdAt: nat
  )

  /** The `id` field, as a key for collection filters. */
  function IdOf(c: Conversation): string { c.id }

  /** The `user_id` field, as a key for collection filters. */
  function UserIdOf(c: Conversation): string { c.userId }

  /** `ConversationCreate(user_id=.., id=..)` with the SQL-mode defaults. */
  function NewBackendConversation(sessionId: string, userId: string, now: nat): Conversation {
    Conversation(sessionId, userId, [], Some([]), now)
  }

  /** `ConversationCreate(user_id=.., id=..)` with the RAG-mode defaults. */
  function NewAppConversation(sessionId: string, userId: string, now: nat): Conversation {
    Conversation(sessionId, userId, [], None, now)
  }
}
