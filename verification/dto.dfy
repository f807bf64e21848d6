/** The transfer objects the client builds or passes through. */
module Dto {
  import opened Wrappers

  /** A Java int. */
  newtype int32 = x: int | -0x8000_0000 <= x < 0x8000_0000

  /** A series to write; its columns and points are passed through unread. */
  datatype Serie = Serie(payload: string)

  /** A scheduled delete; only ever handed to an unsupported operation. */
  datatype ScheduledDelete = ScheduledDelete(payload: string)

  /** The body of a database-creation request. */
  datatype Database = Database(name: string, replicationFactor: int32)

  /** A user body. A field is None until its setter is called. */
  datatype User = User(name: Option<string>, password: Option<string>, admin: Option<bool>, permissions: Option<seq<string>>)

  /** A freshly constructed user, before any setter runs. */
  const NewUser: User := User(None, None, None, None)

  datatype UserField = Name | Password | Admin | Permissions

  /** The fields of a user body that have been set. */
  function SetFields(u: User): set<UserField> {
    (if u.name.Some? then {Name} else {})
    + (if u.password.Some? then {Password} else {})
    + (if u.admin.Some? then {Admin} else {})
    + (if u.permissions.Some? then {Permissions} else {})
  }
}
