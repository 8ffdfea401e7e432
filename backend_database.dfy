/** The SQL-mode backend's MongoDB database: its two collections, in natural order. */
module BackendDatabase {
  import ConversationSchema
  import UserSchema

  class Database {
    var conversations: seq<ConversationSchema.Conversation>
    var users: seq<UserSchema.UserInDBBase>

    constructor (conversations: seq<ConversationSchema.Conversation>, users: seq<UserSchema.UserInDBBase>)
      ensures this.conversations == conversations && this.users == users
    {
      this.conversations := conversations;
      this.users := users;
    }
  }
}
