/**
 * The SQL-mode chat turn: get-or-create the session's record, gate on a
 * loaded schema, ask the model for SQL, run it, phrase the answer, append
 * the two messages and, every other turn, schedule a tag update.
 */
module BackendChat {
  import opened Wrappers
  import opened Text
  import opened Mongo
  import opened ConversationSchema
  import opened ChatSchema
  import opened ConversationStore
  import opened ChatHistory
  import opened BackendDatabase
  import opened BackendCrudConversation
  import BackendCrudUser

  /** The text whose presence in the schema description means no table is loaded. */
  const NoSchemaMarker: string := "No schema loaded"
  const NotLoadedDetail: string := "Knowledge base not loaded. Please upload a CSV file first."

  /** The prompt handed to the SQL generator. */
  function SqlPrompt(schema: string, history: string, message: string): string {
    "Schema:\n" + schema + "\n\nConversation History:\n" + history
    + "\n\nUser's Latest Question: '" + message + "'\n\nQuery:"
  }

  /** The SQL prompt carries the whole schema, the whole history and the quoted question. */
  lemma SqlPromptMentions(schema: string, history: string, message: string)
    ensures IsSubstring(schema, SqlPrompt(schema, history, message))
    ensures IsSubstring(history, SqlPrompt(schema, history, message))
    ensures IsSubstring("'" + message + "'", SqlPrompt(schema, history, message))
  {
    var p := SqlPrompt(schema, history, message);
    var tail := "\n\nUser's Latest Question: '" + message + "'\n\nQuery:";
    assert p == "Schema:\n" + schema + ("\n\nConversation History:\n" + history + tail);
    SubstringOfConcat("Schema:\n", schema, "\n\nConversation History:\n" + history + tail);
    assert p == ("Schema:\n" + schema + "\n\nConversation History:\n") + history + tail;
    SubstringOfConcat("Schema:\n" + schema + "\n\nConversation History:\n", history, tail);
    var pre := "Schema:\n" + schema + "\n\nConversation History:\n" + history + "\n\nUser's Latest Question: ";
    assert p == pre + ("'" + message + "'") + "\n\nQuery:";
    SubstringOfConcat(pre, "'" + message + "'", "\n\nQuery:");
  }

  /** The cadence test, applied to the message count read before the turn's appends. */
  predicate TagsDue(snapshotCount: nat) {
    snapshotCount % 4 == 0
  }

  /**
   * On a new session the `n`-th turn schedules a tag update exactly when
   * `n` is odd — turns 1, 3, 5, … — because each turn adds two messages
   * and the test reads the count before they are added.
   */
  lemma TagsScheduledOnOddTurns(docs: seq<Conversation>, initial: Conversation, turns: seq<(string, string)>)
    requires FindOne(docs, IdOf, initial.id).None?
    requires initial.messages == []
    ensures TagsDue(|TurnRecord(AfterTurns(docs, initial, turns), initial).messages|) <==> |turns| % 2 == 0
  {
    MessagesAfterTurns(docs, initial, turns);
    var count := |TurnRecord(AfterTurns(docs, initial, turns), initial).messages|;
    TwoPerTurnCadence(|turns|);
    assert count == 2 * |turns|;
  }

  lemma TwoPerTurnCadence(n: nat)
    ensures TagsDue(2 * n) <==> n % 2 == 0
  {
    var q := n / 2;
    assert n == 2 * q + n % 2;
    assert 2 * n == 4 * q + 2 * (n % 2);
  }

  /** FastAPI's `BackgroundTasks`: the session ids whose tag update is queued to run after the response. */
  class BackgroundTasks {
    var pending: seq<string>

    constructor ()
      ensures pending == []
    {
      pending := [];
    }

    method AddTask(sessionId: string)
      modifies this
      ensures pending == old(pending) + [sessionId]
    {
      pending := pending + [sessionId];
    }
  }

  /**
   * `update_tags_in_background`: refetch the record, classify its history
   * (`classify` is the model; its error fallback is the empty list) and
   * overwrite the tags only with a non-empty answer.
   */
  method UpdateTagsInBackground(db: Database, sessionId: string, classify: string -> seq<string>)
    modifies db`conversations
    ensures var c := FindOne(old(db.conversations), IdOf, sessionId);
      db.conversations ==
        if c.Some? && |classify(HistoryString(c.value.messages))| > 0
        then SetTags(old(db.conversations), sessionId, classify(HistoryString(c.value.messages)))
        else old(db.conversations)
  {
    var conversation := GetConversationBySessionId(db, sessionId);
    if conversation.Some? {
      var tags := classify(HistoryString(conversation.value.messages));
      if |tags| > 0 {
        UpdateConversationTags(db, sessionId, tags);
      }
    }
  }

  /**
   * `handle_chat`. `schema` is the schema description, `generateSql`,
   * `executeSql` and `synthesize` the model and the database, `now` the
   * clock. The user lookup's answer is not used, so an unknown user does
   * not stop the turn. A schema without a table fails the turn after the
   * record was created; a completed turn appends the question and the
   * reply and echoes the session id.
   */
  method HandleChat(
    db: Database, tasks: BackgroundTasks, request: ChatRequest, now: nat,
    schema: string,
    generateSql: string -> string,
    executeSql: string -> string,
    synthesize: (string, string, string) -> string
  ) returns (r: Http<ChatResponse>)
    modifies db`conversations, tasks
    ensures var initial := NewBackendConversation(request.sessionId, request.userId, now);
      var created := GetOrCreate(old(db.conversations), initial);
      var record := TurnRecord(old(db.conversations), initial);
      var sql := generateSql(SqlPrompt(schema, HistoryString(record.messages), request.message));
      var reply := synthesize(request.message, sql, executeSql(sql));
      if IsSubstring(NoSchemaMarker, schema) then
        && r == HttpError(400, NotLoadedDetail)
        && db.conversations == created
        && tasks.pending == old(tasks.pending)
      else
        && r == Ok(ChatResponse(reply, request.sessionId))
        && db.conversations == AppendTurn(created, request.sessionId, request.message, reply)
        && tasks.pending == old(tasks.pending) + (if TagsDue(|record.messages|) then [request.sessionId] else [])
  {
    var _ := BackendCrudUser.GetUserById(db, request.userId);
    var conversation := GetConversationBySessionId(db, request.sessionId);
    var record: Conversation;
    if conversation.None? {
      record := CreateConversation(db, NewBackendConversation(request.sessionId, request.userId, now));
    } else {
      record := conversation.value;
    }
    var history := HistoryString(record.messages);
    if IsSubstring(NoSchemaMarker, schema) {
      return HttpError(400, NotLoadedDetail);
    }
    var sql := generateSql(SqlPrompt(schema, history, request.message));
    var results := executeSql(sql);
    var reply := synthesize(request.message, sql, results);
    AddMessageToConversation(db, request.sessionId, Message(UserRole, request.message));
    AddMessageToConversation(db, request.sessionId, Message(AssistantRole, reply));
    if TagsDue(|record.messages|) {
      tasks.AddTask(request.sessionId);
    }
    return Ok(ChatResponse(reply, request.sessionId));
  }

  /** `reset_conversation`: 404 on an unknown session, otherwise `delete_one` of its record. */
  method ResetConversation(db: Database, sessionId: string) returns (r: Http<string>)
    modifies db`conversations
    ensures FindOne(old(db.conversations), IdOf, sessionId).None? ==>
      r == HttpError(404, SessionNotFound) && db.conversations == old(db.conversations)
    ensures FindOne(old(db.conversations), IdOf, sessionId).Some? ==>
      r == Ok(ClearedMessage(sessionId)) && db.conversations == DeleteOne(old(db.conversations), IdOf, sessionId)
  {
    var conversation := GetConversationBySessionId(db, sessionId);
    if conversation.None? {
      return HttpError(404, SessionNotFound);
    }
    db.conversations := DeleteOne(db.conversations, IdOf, sessionId);
    return Ok(ClearedMessage(sessionId));
  }
}
