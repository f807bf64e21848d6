/** The requests the client issues: one value per call on the HTTP service
    interface, carrying exactly that call's arguments. */
module Service {
  import opened Wrappers
  import opened Dto

  datatype Request =
    | Ping
    | Write(database: string, series: seq<Serie>, username: string, password: string, timePrecision: string)
    | Query(database: string, query: string, username: string, password: string, timePrecision: string)
    | CreateDatabase(db: Database, username: string, password: string)
    | DeleteDatabase(name: string, username: string, password: string)
    | DescribeDatabases(username: string, password: string)
    | CreateClusterAdmin(user: User, username: string, password: string)
    | DeleteClusterAdmin(name: string, username: string, password: string)
    | DescribeClusterAdmins(username: string, password: string)
    | UpdateClusterAdmin(user: User, name: string, username: string, password: string)
    | CreateDatabaseUser(database: string, user: User, username: string, password: string)
    | DeleteDatabaseUser(database: string, name: string, username: string, password: string)
    | DescribeDatabaseUsers(database: string, username: string, password: string)
    | UpdateDatabaseUser(database: string, user: User, name: string, username: string, password: string)
    | AuthenticateDatabaseUser(database: string, username: string, password: string)
    | GetContinuousQueries(database: string, username: string, password: string)
    | DeleteContinuousQuery(database: string, id: int32, username: string, password: string)

  /** The username/password pair a request authenticates with; a ping carries none. */
  function Auth(r: Request): Option<(string, string)> {
    if r.Ping? then None else Some((r.username, r.password))
  }
}
