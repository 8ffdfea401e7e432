/** The SQL-mode backend's user CRUD operations over `db["users"]`. */
module BackendCrudUser {
  import opened Wrappers
  import opened Mongo
  import opened UserSchema
  import opened BackendDatabase

  /** `find_one({"email": email})`, the stored document itself (hash included). */
  function GetUserByEmail(db: Database, email: string): (r: Option<UserInDBBase>)
    reads db
    ensures r.None? <==> forall i :: 0 <= i < |db.users| ==> db.users[i].email != email
    ensures r.Some? ==> r.value in db.users && r.value.email == email
  {
    FindOne(db.users, EmailOf, email)
  }

  /** `find_one({"id": user_id})`, served as a `User` (no hash). */
  function GetUserById(db: Database, userId: string): (r: Option<User>)
    reads db
    ensures r.None? <==> forall i :: 0 <= i < |db.users| ==> db.users[i].id != userId
    ensures r.Some? ==> r.value.id == userId && exists i :: 0 <= i < |db.users| && r.value == Public(db.users[i])
  {
    match FindOne(db.users, IdOf, userId)
    case None => None
    case Some(u) => Some(Public(u))
  }

  /** The document `create_user` stores: the create fields without the password, the new id and the hash. */
  function StoredUser(userIn: UserCreate, hashedPassword: string, newId: string): UserInDBBase {
    UserInDBBase(userIn.email, userIn.name, userIn.company, newId, hashedPassword)
  }

  /**
   * Hashes the password, stores the document and returns it without the hash.
   * `hash` stands for `get_password_hash`; `newId` for the uuid4 the schema draws.
   */
  method CreateUser(db: Database, userIn: UserCreate, hash: string -> string, newId: string) returns (r: User)
    modifies db`users
    ensures db.users == old(db.users) + [StoredUser(userIn, hash(userIn.password), newId)]
    ensures r == Public(StoredUser(userIn, hash(userIn.password), newId))
  {
    var hashedPassword := hash(userIn.password);
    var dbUser := StoredUser(userIn, hashedPassword, newId);
    db.users := db.users + [dbUser];
    r := Public(dbUser);
  }

  /** `{k: v for k, v in user_update.dict().items() if v is not None}`. */
  function UpdateData(u: UserUpdate): (data: map<string, string>)
    ensures data.Keys <= {"name", "company"}
    ensures "name" in data <==> u.name.Some?
    ensures "company" in data <==> u.company.Some?
    ensures u.name.Some? ==> data["name"] == u.name.value
    ensures u.company.Some? ==> data["company"] == u.company.value
  {
    (if u.name.Some? then map["name" := u.name.value] else map[])
    + (if u.company.Some? then map["company" := u.company.value] else map[])
  }

  /** `$set` of `data` on one stored document. */
  function SetFields(doc: UserInDBBase, data: map<string, string>): UserInDBBase {
    doc.(name := if "name" in data then Some(data["name"]) else doc.name,
         company := if "company" in data then Some(data["company"]) else doc.company)
  }

  /** `update_one({"id": user_id}, {"$set": data})`. */
  function SetById(users: seq<UserInDBBase>, userId: string, data: map<string, string>): seq<UserInDBBase> {
    match FirstIndex(users, IdOf, userId)
    case None => users
    case Some(i) => users[i := SetFields(users[i], data)]
  }

  /**
   * Applies the non-`None` fields of `user_update` and returns the refetched
   * user; with nothing to apply it only fetches.
   */
  method UpdateUser(db: Database, userId: string, userUpdate: UserUpdate) returns (r: Option<User>)
    modifies db`users
    ensures UpdateData(userUpdate) == map[] ==> db.users == old(db.users)
    ensures UpdateData(userUpdate) != map[] ==> db.users == SetById(old(db.users), userId, UpdateData(userUpdate))
    ensures r == GetUserById(db, userId)
    ensures FindOne(old(db.users), IdOf, userId).None? ==> r.None? && db.users == old(db.users)
  {
    var updateData := UpdateData(userUpdate);
    if updateData == map[] {
      return GetUserById(db, userId);
    }
    SetByIdEffect(db.users, userId, updateData, userId);
    db.users := SetById(db.users, userId, updateData);
    r := GetUserById(db, userId);
  }

  /** An update request with every field `None` is a no-op, and only such a request. */
  lemma EmptyUpdateIffAllNone(u: UserUpdate)
    ensures UpdateData(u) == map[] <==> u.name.None? && u.company.None?
  {
    if u.name.Some? {
      assert "name" in UpdateData(u);
    }
    if u.company.Some? {
      assert "company" in UpdateData(u);
    }
  }

  /**
   * A partial update sets exactly the fields given in the request; email, id
   * and password hash are untouched.
   */
  lemma PartialUpdateSetsGivenFields(doc: UserInDBBase, u: UserUpdate)
    ensures var d := SetFields(doc, UpdateData(u));
      && d.email == doc.email && d.id == doc.id && d.hashedPassword == doc.hashedPassword
      && d.name == (if u.name.Some? then u.name else doc.name)
      && d.company == (if u.company.Some? then u.company else doc.company)
  {
  }

  /**
   * `update_one` by id changes only the first user with that id (a missing
   * user is a no-op), keeps every email, and a later lookup by id sees the
   * updated document.
   */
  lemma SetByIdEffect(users: seq<UserInDBBase>, userId: string, data: map<string, string>, k: string)
    ensures |SetById(users, userId, data)| == |users|
    ensures forall i :: 0 <= i < |users| ==> SetById(users, userId, data)[i].email == users[i].email
    ensures FindOne(SetById(users, userId, data), IdOf, k)
         == if k == userId && FindOne(users, IdOf, userId).Some?
            then Some(SetFields(FindOne(users, IdOf, userId).value, data))
            else FindOne(users, IdOf, k)
  {
    match FirstIndex(users, IdOf, userId)
    case None =>
    case Some(i) =>
      FindOneAfterReplace(users, IdOf, userId, SetFields(users[i], data), k);
  }

  /** Updates never touch emails, so they keep emails unique. */
  lemma SetByIdKeepsEmailsUnique(users: seq<UserInDBBase>, userId: string, data: map<string, string>)
    requires UniqueKeys(users, EmailOf)
    ensures UniqueKeys(SetById(users, userId, data), EmailOf)
  {
    SetByIdEffect(users, userId, data, userId);
  }
}
