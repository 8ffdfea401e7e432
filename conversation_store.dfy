/**
 * What the two chat variants and their CRUD layers do to the `conversations`
 * collection, as functions of its documents: `$push` of one message,
 * `$set` of the tags, the get-or-create step of a turn and the two appends
 * that close it.
 */
module ConversationStore {
  import opened Wrappers
  import opened Mongo
  import opened ConversationSchema

  /** `update_one({"id": sessionId}, {"$push": {"messages": m}})`. */
  function PushMessage(docs: seq<Conversation>, sessionId: string, m: Message): seq<Conversation> {
    match FirstIndex(docs, IdOf, sessionId)
    case None => docs
    case Some(i) => docs[i := docs[i].(messages := docs[i].messages + [m])]
  }

  /** `update_one({"id": sessionId}, {"$set": {"tags": tags}})`. */
  function SetTags(docs: seq<Conversation>, sessionId: string, tags: seq<string>): seq<Conversation> {
    match FirstIndex(docs, IdOf, sessionId)
    case None => docs
    case Some(i) => docs[i := docs[i].(tags := Some(tags))]
  }

  /** The collection after a turn's get-or-create: `initial` is inserted only when its id is unknown. */
  function GetOrCreate(docs: seq<Conversation>, initial: Conversation): seq<Conversation> {
    if FindOne(docs, IdOf, initial.id).Some? then docs else docs + [initial]
  }

  /** The record a turn works with: the stored one, or the one it just created. */
  function TurnRecord(docs: seq<Conversation>, initial: Conversation): Conversation {
    FindOne(docs, IdOf, initial.id).GetOr(initial)
  }

  /** The two appends that end a turn: the user's message, then the assistant's reply. */
  function AppendTurn(docs: seq<Conversation>, sessionId: string, question: string, reply: string): seq<Conversation> {
    PushMessage(PushMessage(docs, sessionId, Message(UserRole, question)), sessionId, Message(AssistantRole, reply))
  }

  /**
   * `$push` appends at the end of the first record with that id and changes
   * nothing else; on an unknown id it changes nothing (no upsert).
   */
  lemma PushMessageEffect(docs: seq<Conversation>, sessionId: string, m: Message, k: string)
    ensures FindOne(docs, IdOf, sessionId).None? ==> PushMessage(docs, sessionId, m) == docs
    ensures |PushMessage(docs, sessionId, m)| == |docs|
    ensures FindOne(PushMessage(docs, sessionId, m), IdOf, k)
         == if k == sessionId && FindOne(docs, IdOf, sessionId).Some?
            then Some(FindOne(docs, IdOf, sessionId).value.(messages := FindOne(docs, IdOf, sessionId).value.messages + [m]))
            else FindOne(docs, IdOf, k)
  {
    match FirstIndex(docs, IdOf, sessionId)
    case None =>
    case Some(i) =>
      var c := docs[i];
      FindOneAfterReplace(docs, IdOf, sessionId, c.(messages := c.messages + [m]), k);
  }

  /** `$set` of the tags replaces the whole list and leaves the messages alone. */
  lemma SetTagsEffect(docs: seq<Conversation>, sessionId: string, tags: seq<string>, k: string)
    ensures FindOne(docs, IdOf, sessionId).None? ==> SetTags(docs, sessionId, tags) == docs
    ensures FindOne(SetTags(docs, sessionId, tags), IdOf, k)
         == if k == sessionId && FindOne(docs, IdOf, sessionId).Some?
            then Some(FindOne(docs, IdOf, sessionId).value.(tags := Some(tags)))
            else FindOne(docs, IdOf, k)
  {
    match FirstIndex(docs, IdOf, sessionId)
    case None =>
    case Some(i) =>
      FindOneAfterReplace(docs, IdOf, sessionId, docs[i].(tags := Some(tags)), k);
  }

  /** After get-or-create the session's record is found, and it is the turn's record. */
  lemma GetOrCreateFinds(docs: seq<Conversation>, initial: Conversation, k: string)
    ensures FindOne(GetOrCreate(docs, initial), IdOf, initial.id) == Some(TurnRecord(docs, initial))
    ensures k != initial.id ==> FindOne(GetOrCreate(docs, initial), IdOf, k) == FindOne(docs, IdOf, k)
  {
    FindOneAfterInsert(docs, IdOf, initial.id, initial);
    FindOneAfterInsert(docs, IdOf, k, initial);
  }

  /**
   * A completed turn leaves the session's record holding its previous
   * messages followed by exactly the user's message and the reply, with all
   * other fields as they were; every other session is untouched.
   */
  lemma CompletedTurnEffect(docs: seq<Conversation>, initial: Conversation, question: string, reply: string, k: string)
    ensures var c := TurnRecord(docs, initial);
      FindOne(AppendTurn(GetOrCreate(docs, initial), initial.id, question, reply), IdOf, initial.id)
        == Some(c.(messages := c.messages + [Message(UserRole, question), Message(AssistantRole, reply)]))
    ensures k != initial.id ==>
      FindOne(AppendTurn(GetOrCreate(docs, initial), initial.id, question, reply), IdOf, k) == FindOne(docs, IdOf, k)
  {
    var d0 := GetOrCreate(docs, initial);
    var u := Message(UserRole, question);
    var a := Message(AssistantRole, reply);
    var d1 := PushMessage(d0, initial.id, u);
    GetOrCreateFinds(docs, initial, k);
    PushMessageEffect(d0, initial.id, u, initial.id);
    PushMessageEffect(d0, initial.id, u, k);
    PushMessageEffect(d1, initial.id, a, initial.id);
    PushMessageEffect(d1, initial.id, a, k);
    var c := TurnRecord(docs, initial);
    assert c.messages + [u] + [a] == c.messages + [u, a];
  }

  /** Every step a turn takes keeps session ids unique. */
  lemma TurnKeepsIdsUnique(docs: seq<Conversation>, initial: Conversation, question: string, reply: string)
    requires UniqueKeys(docs, IdOf)
    ensures UniqueKeys(GetOrCreate(docs, initial), IdOf)
    ensures UniqueKeys(AppendTurn(GetOrCreate(docs, initial), initial.id, question, reply), IdOf)
  {
    var d0 := GetOrCreate(docs, initial);
    if FindOne(docs, IdOf, initial.id).None? {
      InsertFreshKeepsUnique(docs, IdOf, initial);
    }
    PushKeepsIdsUnique(d0, initial.id, Message(UserRole, question));
    PushKeepsIdsUnique(PushMessage(d0, initial.id, Message(UserRole, question)), initial.id, Message(AssistantRole, reply));
  }

  lemma PushKeepsIdsUnique(docs: seq<Conversation>, sessionId: string, m: Message)
    requires UniqueKeys(docs, IdOf)
    ensures UniqueKeys(PushMessage(docs, sessionId, m), IdOf)
  {
    match FirstIndex(docs, IdOf, sessionId)
    case None =>
    case Some(i) => ReplaceKeepsUnique(docs, IdOf, i, docs[i].(messages := docs[i].messages + [m]));
  }

  /**
   * Reset is a hard delete: with unique ids, the session is gone afterwards,
   * so the next turn starts from the initial record (empty messages, default
   * tags), and every other session is untouched.
   */
  lemma ResetForgetsSession(docs: seq<Conversation>, initial: Conversation, k: string)
    requires UniqueKeys(docs, IdOf)
    ensures TurnRecord(DeleteOne(docs, IdOf, initial.id), initial) == initial
    ensures k != initial.id ==> FindOne(DeleteOne(docs, IdOf, initial.id), IdOf, k) == FindOne(docs, IdOf, k)
  {
    DeleteOneUnique(docs, IdOf, initial.id, k);
  }

  /** The session's record after `n` completed turns started from an unknown session id. */
  function AfterTurns(docs: seq<Conversation>, initial: Conversation, turns: seq<(string, string)>): seq<Conversation>
    decreases |turns|
  {
    if |turns| == 0 then docs
    else
      var before := AfterTurns(docs, initial, turns[..|turns| - 1]);
      AppendTurn(GetOrCreate(before, initial), initial.id, turns[|turns| - 1].0, turns[|turns| - 1].1)
  }

  /** Two messages per turn: after `n` turns on a new session the record holds `2 n` messages. */
  lemma {:induction false} MessagesAfterTurns(docs: seq<Conversation>, initial: Conversation, turns: seq<(string, string)>)
    requires FindOne(docs, IdOf, initial.id).None?
    requires initial.messages == []
    ensures |turns| > 0 ==> FindOne(AfterTurns(docs, initial, turns), IdOf, initial.id).Some?
    ensures |TurnRecord(AfterTurns(docs, initial, turns), initial).messages| == 2 * |turns|
    decreases |turns|
  {
    if |turns| > 0 {
      var prefix := turns[..|turns| - 1];
      var before := AfterTurns(docs, initial, prefix);
      MessagesAfterTurns(docs, initial, prefix);
      var last := turns[|turns| - 1];
      CompletedTurnEffect(before, initial, last.0, last.1, initial.id);
    }
  }
}
