/** User records of the SQL-mode backend: stored with a password hash, served without it. */
module UserSchema {
  import opened Wrappers

  datatype UserCreate = UserCreate(email: string, name: Option<string>, company: Option<string>, password: string)

  /** The stored document. */
  datatype UserInDBBase = UserInDBBase(
    email: string, name: Option<string>, company: Option<string>, id: string, hashedPassword: string)

  /** What the API returns: the stored document minus the hash. */
  datatype User = User(email: string, name: Option<string>, company: Option<string>, id: string)

  datatype UserUpdate = UserUpdate(name: Option<string>, company: Option<string>)

  function Public(u: UserInDBBase): User {
    User(u.email, u.name, u.company, u.id)
  }

  function EmailOf(u: UserInDBBase): string { u.email }

  function IdOf(u: UserInDBBase): string { u.id }
}
