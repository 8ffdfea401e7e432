/** The RAG-mode application's user CRUD operations over `db["users"]`. */
module AppCrudUser {
  import opened Wrappers
  import opened Mongo
  import opened AppUserSchema
  import opened AppDatabase

  /** `find_one({"email": email})`. */
  function GetUserByEmail(db: Database, email: string): (r: Option<UserInDB>)
    reads db
    ensures r.None? <==> forall i :: 0 <= i < |db.users| ==> db.users[i].email != email
    ensures r.Some? ==> r.value in db.users && r.value.email == email
  {
    FindOne(db.users, EmailOf, email)
  }

  /** `find_one({"id": user_id})`. */
  function GetUserById(db: Database, userId: string): (r: Option<UserInDB>)
    reads db
    ensures r.None? <==> forall i :: 0 <= i < |db.users| ==> db.users[i].id != userId
    ensures r.Some? ==> r.value in db.users && r.value.id == userId
  {
    FindOne(db.users, IdOf, userId)
  }

  /** `UserInDB(**user.dict())`: the create fields and the id the schema draws (`newId`). */
  function NewUser(user: UserCreate, newId: string): UserInDB {
    UserInDB(user.email, user.name, user.company, user.preferences, newId)
  }

  /** Inserts one record with the new id and returns it. */
  method CreateUser(db: Database, user: UserCreate, newId: string) returns (r: UserInDB)
    modifies db`users
    ensures db.users == old(db.users) + [NewUser(user, newId)]
    ensures r == NewUser(user, newId)
  {
    var newUser := NewUser(user, newId);
    db.users := db.users + [newUser];
    r := newUser;
  }

  /** `{k: v for k, v in user_update.dict().items() if v is not None}`. */
  function UpdateData(u: UserUpdate): (data: map<string, string>)
    ensures data.Keys <= {"name", "company", "preferences"}
    ensures "name" in data <==> u.name.Some?
    ensures "company" in data <==> u.company.Some?
    ensures "preferences" in data <==> u.preferences.Some?
    ensures u.name.Some? ==> data["name"] == u.name.value
    ensures u.company.Some? ==> data["company"] == u.company.value
    ensures u.preferences.Some? ==> data["preferences"] == u.preferences.value
  {
    (if u.name.Some? then map["name" := u.name.value] else map[])
    + (if u.company.Some? then map["company" := u.company.value] else map[])
    + (if u.preferences.Some? then map["preferences" := u.preferences.value] else map[])
  }

  /** `$set` of `data` on one stored document. */
  function SetFields(doc: UserInDB, data: map<string, string>): UserInDB {
    doc.(name := if "name" in data then Some(data["name"]) else doc.name,
         company := if "company" in data then Some(data["company"]) else doc.company,
         preferences := if "preferences" in data then Some(data["preferences"]) else doc.preferences)
  }

  /** `update_one({"id": user_id}, {"$set": data})`. */
  function SetById(users: seq<UserInDB>, userId: string, data: map<string, string>): seq<UserInDB> {
    match FirstIndex(users, IdOf, userId)
    case None => users
    case Some(i) => users[i := SetFields(users[i], data)]
  }

  /**
   * Applies the non-`None` fields of `user_update` and returns the refetched
   * record; with nothing to apply it only fetches.
   */
  method UpdateUser(db: Database, userId: string, userUpdate: UserUpdate) returns (r: Option<UserInDB>)
    modifies db`users
    ensures UpdateData(userUpdate) == map[] ==> db.users == old(db.users)
    ensures UpdateData(userUpdate) != map[] ==> db.users == SetById(old(db.users), userId, UpdateData(userUpdate))
    ensures r == GetUserById(db, userId)
    ensures FindOne(old(db.users), IdOf, userId).None? ==> r.None? && db.users == old(db.users)
  {
    var updateData := UpdateData(userUpdate);
    if updateData == map[] {
      return GetUserById(db, userId);
    }
    SetByIdEffect(db.users, userId, updateData, userId);
    db.users := SetById(db.users, userId, updateData);
    r := GetUserById(db, userId);
  }

  /** An update request with no non-`None` field is a no-op, and only such a request. */
  lemma EmptyUpdateIffAllNone(u: UserUpdate)
    ensures UpdateData(u) == map[] <==> u.name.None? && u.company.None? && u.preferences.None?
  {
    if u.name.Some? {
      assert "name" in UpdateData(u);
    }
    if u.company.Some? {
      assert "company" in UpdateData(u);
    }
    if u.preferences.Some? {
      assert "preferences" in UpdateData(u);
    }
  }

  /** A partial update sets exactly the given fields among name, company and preferences. */
  lemma PartialUpdateSetsGivenFields(doc: UserInDB, u: UserUpdate)
    ensures var d := SetFields(doc, UpdateData(u));
      && d.email == doc.email && d.id == doc.id
      && d.name == (if u.name.Some? then u.name else doc.name)
      && d.company == (if u.company.Some? then u.company else doc.company)
      && d.preferences == (if u.preferences.Some? then u.preferences else doc.preferences)
  {
  }

  /** `update_one` by id changes only the first user with that id; a later lookup sees the change. */
  lemma SetByIdEffect(users: seq<UserInDB>, userId: string, data: map<string, string>, k: string)
    ensures |SetById(users, userId, data)| == |users|
    ensures forall i :: 0 <= i < |users| ==> SetById(users, userId, data)[i].email == users[i].email
    ensures FindOne(SetById(users, userId, data), IdOf, k)
         == if k == userId && FindOne(users, IdOf, userId).Some?
            then Some(SetFields(FindOne(users, IdOf, userId).value, data))
            else FindOne(users, IdOf, k)
  {
    match FirstIndex(users, IdOf, userId)
    case None =>
    case Some(i) =>
      FindOneAfterReplace(users, IdOf, userId, SetFields(users[i], data), k);
  }
}
