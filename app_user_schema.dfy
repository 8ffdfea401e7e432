/** User records of the RAG-mode application: no password, an extra `preferences` field. */
module AppUserSchema {
  import opened Wrappers

  datatype UserCreate = UserCreate(email: string, name: Option<string>, company: Option<string>, preferences: Option<string>)

  datatype UserInDB = UserInDB(
    email: string, name: Option<string>, company: Option<string>, preferences: Option<string>, id: string)

  datatype UserUpdate = UserUpdate(name: Option<string>, company: Option<string>, preferences: Option<string>)

  function EmailOf(u: UserInDB): string { u.email }

  function IdOf(u: UserInDB): string { u.id }
}
