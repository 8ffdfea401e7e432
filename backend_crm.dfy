/**
 * The SQL-mode backend's CRM endpoints over the user and conversation
 * collections: each one looks the user up first and answers 400 or 404
 * when the lookup says so.
 */
module BackendCrm {
  import opened Wrappers
  import opened Mongo
  import opened UserSchema
  import ConversationSchema
  import opened ChatSchema
  import opened BackendDatabase
  import opened BackendCrudUser
  import opened BackendCrudConversation

  const EmailTakenDetail: string := "Email already registered."
  const EmailNotFoundDetail: string := "User with this email not found."
  const UserNotFoundDetail: string := "User not found."

  /** The user collection after one sign-up: the new document is stored only when its email is unknown. */
  function SignupStore(users: seq<UserInDBBase>, userIn: UserCreate, hash: string -> string, newId: string): seq<UserInDBBase> {
    if FindOne(users, EmailOf, userIn.email).Some? then users
    else users + [StoredUser(userIn, hash(userIn.password), newId)]
  }

  /**
   * `create_new_user` as written: it passes the request as `user=`, while
   * `create_user` takes it as `user_in`, so every sign-up that gets past the
   * email check raises and stores nothing.
   */
  method CreateNewUserAsWritten(db: Database, user: UserCreate) returns (r: Http<User>)
    modifies db`users
    ensures FindOne(old(db.users), EmailOf, user.email).Some? ==> r == HttpError(400, EmailTakenDetail)
    ensures FindOne(old(db.users), EmailOf, user.email).None? ==> r == HttpError(500, InternalServerError)
    ensures db.users == old(db.users)
  {
    var dbUser := GetUserByEmail(db, user.email);
    if dbUser.Some? {
      return HttpError(400, EmailTakenDetail);
    }
    return HttpError(500, InternalServerError);
  }

  /** A first sign-up on an empty user collection: as written it fails and nobody is stored. */
  method FirstSignupAsWritten(user: UserCreate) returns (r: Http<User>, stored: seq<UserInDBBase>)
    ensures r == HttpError(500, InternalServerError) && stored == []
  {
    var db := new Database([], []);
    r := CreateNewUserAsWritten(db, user);
    stored := db.users;
  }

  /**
   * `create_new_user` with the request handed over under the name
   * `create_user` expects: 400 on a registered email, otherwise the user is
   * stored and returned without its hash.
   */
  method CreateNewUser(db: Database, user: UserCreate, hash: string -> string, newId: string) returns (r: Http<User>)
    modifies db`users
    ensures db.users == SignupStore(old(db.users), user, hash, newId)
    ensures FindOne(old(db.users), EmailOf, user.email).Some? ==> r == HttpError(400, EmailTakenDetail)
    ensures FindOne(old(db.users), EmailOf, user.email).None? ==>
      r == Ok(Public(StoredUser(user, hash(user.password), newId)))
  {
    var dbUser := GetUserByEmail(db, user.email);
    if dbUser.Some? {
      return HttpError(400, EmailTakenDetail);
    }
    var created := CreateUser(db, user, hash, newId);
    return Ok(created);
  }

  /** A first sign-up on an empty user collection, corrected: the user is stored and returned. */
  method FirstSignup(user: UserCreate, hash: string -> string, newId: string) returns (r: Http<User>, stored: seq<UserInDBBase>)
    ensures r == Ok(User(user.email, user.name, user.company, newId))
    ensures stored == [UserInDBBase(user.email, user.name, user.company, newId, hash(user.password))]
  {
    var db := new Database([], []);
    r := CreateNewUser(db, user, hash, newId);
    stored := db.users;
  }

  /** The user collection after a run of sign-ups, each with its hash function's answer and fresh id. */
  function AfterSignups(users: seq<UserInDBBase>, requests: seq<(UserCreate, string)>, hash: string -> string): seq<UserInDBBase>
    decreases |requests|
  {
    if |requests| == 0 then users
    else
      var last := requests[|requests| - 1];
      SignupStore(AfterSignups(users, requests[..|requests| - 1], hash), last.0, hash, last.1)
  }

  /** One sign-up keeps emails unique, and the email is registered afterwards. */
  lemma SignupKeepsEmailsUnique(users: seq<UserInDBBase>, userIn: UserCreate, hash: string -> string, newId: string)
    requires UniqueKeys(users, EmailOf)
    ensures UniqueKeys(SignupStore(users, userIn, hash, newId), EmailOf)
    ensures FindOne(SignupStore(users, userIn, hash, newId), EmailOf, userIn.email).Some?
  {
    if FindOne(users, EmailOf, userIn.email).None? {
      var u := StoredUser(userIn, hash(userIn.password), newId);
      InsertFreshKeepsUnique(users, EmailOf, u);
      FindOneAfterInsert(users, EmailOf, userIn.email, u);
    }
  }

  /** However many sign-ups come in, no two stored users share an email. */
  lemma {:induction false} SignupsKeepEmailsUnique(users: seq<UserInDBBase>, requests: seq<(UserCreate, string)>, hash: string -> string)
    requires UniqueKeys(users, EmailOf)
    ensures UniqueKeys(AfterSignups(users, requests, hash), EmailOf)
    decreases |requests|
  {
    if |requests| > 0 {
      var prefix := requests[..|requests| - 1];
      SignupsKeepEmailsUnique(users, prefix, hash);
      var last := requests[|requests| - 1];
      SignupKeepsEmailsUnique(AfterSignups(users, prefix, hash), last.0, hash, last.1);
    }
  }

  /** `get_user_by_email_endpoint`: the stored document with that email, or 404. */
  function GetUserByEmailEndpoint(db: Database, email: string): (r: Http<UserInDBBase>)
    reads db
    ensures r.HttpError? <==> forall i :: 0 <= i < |db.users| ==> db.users[i].email != email
    ensures r.HttpError? ==> r == HttpError(404, EmailNotFoundDetail)
    ensures r.Ok? ==> r.body in db.users && r.body.email == email
  {
    match GetUserByEmail(db, email)
    case None => HttpError(404, EmailNotFoundDetail)
    case Some(u) => Ok(u)
  }

  /**
   * `update_existing_user`: 404 with nothing changed on an unknown id,
   * otherwise the partial update applied to that user and the result served
   * without its hash.
   */
  method UpdateExistingUser(db: Database, userId: string, userUpdate: UserUpdate) returns (r: Http<User>)
    modifies db`users
    ensures FindOne(old(db.users), IdOf, userId).None? ==>
      r == HttpError(404, UserNotFoundDetail) && db.users == old(db.users)
    ensures FindOne(old(db.users), IdOf, userId).Some? ==>
      && r == Ok(Public(SetFields(FindOne(old(db.users), IdOf, userId).value, UpdateData(userUpdate))))
      && db.users == (if UpdateData(userUpdate) == map[] then old(db.users)
                      else SetById(old(db.users), userId, UpdateData(userUpdate)))
    ensures UniqueKeys(old(db.users), EmailOf) ==> UniqueKeys(db.users, EmailOf)
  {
    var dbUser := GetUserById(db, userId);
    if dbUser.None? {
      return HttpError(404, UserNotFoundDetail);
    }
    ghost var before := db.users;
    SetByIdEffect(before, userId, UpdateData(userUpdate), userId);
    if UniqueKeys(before, EmailOf) {
      SetByIdKeepsEmailsUnique(before, userId, UpdateData(userUpdate));
    }
    var updated := UpdateUser(db, userId, userUpdate);
    return Ok(updated.value);
  }

  /** `get_user_conversations`: 404 on an unknown user, otherwise every conversation of that user. */
  method GetUserConversations(db: Database, userId: string) returns (r: Http<seq<ConversationSchema.Conversation>>)
    ensures FindOne(db.users, IdOf, userId).None? ==> r == HttpError(404, UserNotFoundDetail)
    ensures FindOne(db.users, IdOf, userId).Some? ==> r == Ok(Find(db.conversations, ConversationSchema.UserIdOf, userId))
  {
    var dbUser := GetUserById(db, userId);
    if dbUser.None? {
      return HttpError(404, UserNotFoundDetail);
    }
    var conversations := GetConversationsByUserId(db, userId);
    return Ok(conversations);
  }
}
