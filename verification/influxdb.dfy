/** The public client interface (org.influxdb.InfluxDB): its log levels, and one
    call value per interface method with that method's arguments. */
module InfluxDB {
  import opened Dto
  import opened Precision

  /** InfluxDB.LogLevel. */
  datatype LogLevel = NONE | BASIC | HEADERS | FULL

  /** The constant's declared name. */
  function Name(l: LogLevel): string {
    match l
    case NONE => "NONE"
    case BASIC => "BASIC"
    case HEADERS => "HEADERS"
    case FULL => "FULL"
  }

  /** A call of one interface method other than setLogLevel. */
  datatype Call =
    | Ping
    | Write(database: string, series: seq<Serie>, precision: TimeUnit)
    | Query(database: string, query: string, precision: TimeUnit)
    | CreateDatabase(name: string, replicationFactor: int32)
    | DeleteDatabase(name: string)
    | DescribeDatabases
    | CreateClusterAdmin(name: string, password: string)
    | DeleteClusterAdmin(name: string)
    | DescribeClusterAdmins
    | UpdateClusterAdmin(name: string, password: string)
    | CreateDatabaseUser(database: string, name: string, password: string, permissions: seq<string>)
    | DeleteDatabaseUser(database: string, name: string)
    | DescribeDatabaseUsers(database: string)
    | UpdateDatabaseUser(database: string, name: string, password: string, permissions: seq<string>)
    | AlterDatabasePrivilege(database: string, name: string, isAdmin: bool, permissions: seq<string>)
    | AuthenticateDatabaseUser(database: string, username: string, password: string)
    | GetContinuousQueries(database: string)
    | DeleteContinuousQuery(database: string, id: int32)
    | DeletePoints(database: string, serieName: string)
    | CreateScheduledDelete(database: string, scheduledDelete: ScheduledDelete)
    | DescribeScheduledDeletes(database: string)
    | RemoveScheduledDelete(database: string, id: int32)
}
