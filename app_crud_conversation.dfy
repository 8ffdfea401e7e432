/** The RAG-mode application's conversation CRUD operations over `db["conversations"]`. */
module AppCrudConversation {
  import opened Wrappers
  import opened Mongo
  import opened ConversationSchema
  import opened ConversationStore
  import opened AppDatabase

  /** `insert_one` of the record; the same record is handed back. */
  method CreateConversation(db: Database, conversation: Conversation) returns (r: Conversation)
    modifies db`conversations
    ensures db.conversations == old(db.conversations) + [conversation]
    ensures r == conversation
  {
    db.conversations := db.conversations + [conversation];
    r := conversation;
  }

  /** `find_one({"id": session_id})`: the first record with that id, or `None` when there is none. */
  function GetConversationBySessionId(db: Database, sessionId: string): (r: Option<Conversation>)
    reads db
    ensures r.None? <==> forall i :: 0 <= i < |db.conversations| ==> db.conversations[i].id != sessionId
    ensures r.Some? ==> r.value in db.conversations && r.value.id == sessionId
  {
    FindOne(db.conversations, IdOf, sessionId)
  }

  /** `$push` of one message onto the session's record; an unknown session is left as it is. */
  method AddMessageToConversation(db: Database, sessionId: string, message: Message)
    modifies db`conversations
    ensures db.conversations == PushMessage(old(db.conversations), sessionId, message)
  {
    db.conversations := PushMessage(db.conversations, sessionId, message);
  }

  /** Drains the cursor of `find({"user_id": user_id})` into a list. */
  method GetConversationsByUserId(db: Database, userId: string) returns (r: seq<Conversation>)
    ensures r == Find(db.conversations, UserIdOf, userId)
  {
    r := [];
    var i := 0;
    while i < |db.conversations|
      invariant 0 <= i <= |db.conversations|
      invariant r == Find(db.conversations[..i], UserIdOf, userId)
    {
      var document := db.conversations[i];
      assert db.conversations[..i + 1][..i] == db.conversations[..i];
      if document.userId == userId {
        r := r + [document];
      }
      i := i + 1;
    }
    assert db.conversations[..i] == db.conversations;
  }
}
