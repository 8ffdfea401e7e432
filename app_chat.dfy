/**
 * The RAG-mode chat turn: reject an unknown user, get-or-create the
 * session's record, retrieve listings for the question, build the system
 * prompt from the history and the listings, ask the model and append the
 * question and the reply.
 */
module AppChat {
  import opened Wrappers
  import opened Text
  import opened Mongo
  import opened ConversationSchema
  import opened ChatSchema
  import opened ConversationStore
  import opened ChatHistory
  import opened AppDatabase
  import opened AppCrudConversation
  import AppCrudUser
  import opened RagService

  const UserNotFoundDetail: string := "User not found. Please create a user first."

  const PromptIntro: string :=
    "You are a helpful real estate assistant. Your task is to answer the user's questions based on the provided context.\n"
    + "The context includes the previous conversation history and a list of retrieved property listings.\n"
    + "Use the conversation history to understand follow-up questions. Use the property listings to answer questions about the properties.\n\n"
    + "--- Previous Conversation ---\n"

  const PromptListings: string := "\n\n--- Retrieved Property Listings ---\n"

  const PromptInstructions: string :=
    "\n\n--- INSTRUCTIONS ---\n"
    + "Based on all the context above, provide a clear and accurate answer to the user's LATEST message: '"

  const PromptOutro: string :=
    "'.\n"
    + "If the user asks for properties at an address, list all matching properties with their key details (Unit, SqFt, Rent). Do not summarize unless asked."

  /** The system prompt: fixed instructions around the history, the retrieved listings and the quoted question. */
  function SystemPrompt(history: string, context: string, message: string): string {
    PromptIntro + history + PromptListings + context + PromptInstructions + message + PromptOutro
  }

  /** The system prompt carries the whole history, the whole retrieved context and the question. */
  lemma SystemPromptMentions(history: string, context: string, message: string)
    ensures IsSubstring(history, SystemPrompt(history, context, message))
    ensures IsSubstring(context, SystemPrompt(history, context, message))
    ensures IsSubstring(message, SystemPrompt(history, context, message))
  {
    var a, b, c, d := PromptIntro, PromptListings, PromptInstructions, PromptOutro;
    ConcatOfSeven(a, history, b, context, c, message, d);
    SubstringOfConcat(a, history, b + context + c + message + d);
    SubstringOfConcat(a + history + b, context, c + message + d);
    SubstringOfConcat(a + history + b + context + c, message, d);
  }

  /** Regroupings of the prompt's seven parts that the proof above cuts it by. */
  lemma ConcatOfSeven(a: string, h: string, b: string, x: string, c: string, m: string, d: string)
    ensures a + h + b + x + c + m + d == a + h + (b + x + c + m + d)
    ensures a + h + b + x + c + m + d == a + h + b + x + (c + m + d)
  {
  }

  /**
   * `handle_chat`. `rag` is the process-wide knowledge store, `search` the
   * nearest-neighbour answer for the question (`None` when embedding the
   * question raised), `llm` the chat model given the system prompt and the
   * prior messages, `now` the clock. An unknown user changes nothing. A
   * failed query embedding, or a lookup the store cannot answer, raises
   * after the record was created and is answered with a 500. Otherwise the model sees the prior messages only —
   * the question reaches it inside the system prompt — and the turn appends
   * the question and the reply.
   */
  method HandleChat(
    db: Database, rag: RAGService, request: ChatRequest, now: nat,
    search: Option<seq<int>>,
    llm: (string, seq<Message>) -> string
  ) returns (r: Http<ChatResponse>)
    modifies db`conversations
    ensures var initial := NewAppConversation(request.sessionId, request.userId, now);
      var created := GetOrCreate(old(db.conversations), initial);
      var record := TurnRecord(old(db.conversations), initial);
      var retrieved := rag.RetrieveContext(search);
      if AppCrudUser.GetUserById(db, request.userId).None? then
        && r == HttpError(404, UserNotFoundDetail)
        && db.conversations == old(db.conversations)
      else if retrieved.IndexError? || retrieved.EmbeddingFailed? then
        && r == HttpError(500, InternalServerError)
        && db.conversations == created
      else
        var reply := llm(SystemPrompt(HistoryString(record.messages), retrieved.text, request.message), record.messages);
        && r == Ok(ChatResponse(reply, request.sessionId))
        && db.conversations == AppendTurn(created, request.sessionId, request.message, reply)
  {
    var user := AppCrudUser.GetUserById(db, request.userId);
    if user.None? {
      return HttpError(404, UserNotFoundDetail);
    }
    var conversation := GetConversationBySessionId(db, request.sessionId);
    var record: Conversation;
    if conversation.None? {
      record := CreateConversation(db, NewAppConversation(request.sessionId, request.userId, now));
    } else {
      record := conversation.value;
    }
    var conversationHistory := record.messages;
    var retrieved := rag.RetrieveContext(search);
    if !retrieved.Context? {
      return HttpError(500, InternalServerError);
    }
    var history := HistoryString(conversationHistory);
    var reply := llm(SystemPrompt(history, retrieved.text, request.message), conversationHistory);
    AddMessageToConversation(db, request.sessionId, Message(UserRole, request.message));
    AddMessageToConversation(db, request.sessionId, Message(AssistantRole, reply));
    return Ok(ChatResponse(reply, request.sessionId));
  }

  /** `reset_conversation`: 404 on an unknown session, otherwise `delete_one` of its record. */
  method ResetConversation(db: Database, sessionId: string) returns (r: Http<string>)
    modifies db`conversations
    ensures FindOne(old(db.conversations), IdOf, sessionId).None? ==>
      r == HttpError(404, SessionNotFound) && db.conversations == old(db.conversations)
    ensures FindOne(old(db.conversations), IdOf, sessionId).Some? ==>
      r == Ok(ClearedMessage(sessionId)) && db.conversations == DeleteOne(old(db.conversations), IdOf, sessionId)
  {
    var conversation := GetConversationBySessionId(db, sessionId);
    if conversation.None? {
      return HttpError(404, SessionNotFound);
    }
    db.conversations := DeleteOne(db.conversations, IdOf, sessionId);
    return Ok(ClearedMessage(sessionId));
  }
}
