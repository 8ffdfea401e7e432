/** The RAG-mode application's MongoDB database: its two collections, in natural order. */
module AppDatabase {
  import ConversationSchema
  import AppUserSchema

  class Database {
    var conversations: seq<ConversationSchema.Conversation>
    var users: seq<AppUserSchema.UserInDB>

    constructor (conversations: seq<ConversationSchema.Conversation>, users: seq<AppUserSchema.UserInDB>)
      ensures this.conversations == conversations && this.users == users
    {
      this.conversations := conversations;
      this.users := users;
    }
  }
}
