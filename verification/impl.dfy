/** The client implementation (InfluxDBImpl): each interface method turns its
    arguments into exactly one service request, or fails locally without one. */
module Impl {
  import opened Wrappers
  import opened Errors
  import opened Dto
  import opened Precision
  import RestAdapter
  import InfluxDB
  import Service

  /** A constructed client: the endpoint the adapter is bound to, the credential
      pair fixed at construction, and the adapter's current log level. */
  datatype Client = Client(endpoint: string, username: string, password: string, adapterLevel: RestAdapter.LogLevel) {
    /** The configured username/password pair. */
    function Credentials(): (string, string) {
      (username, password)
    }
  }

  /** Constructs a client. Nothing is sent; the adapter starts at its builder's
      default level, NONE. */
  function NewClient(url: string, username: string, password: string): (c: Client)
    ensures c.Credentials() == (username, password)
    ensures c.endpoint == url
    ensures c.adapterLevel == RestAdapter.NONE
  {
    Client(url, username, password, RestAdapter.NONE)
  }

  /** The adapter level a client log level selects: the one of the same name. */
  function AdapterLevel(l: InfluxDB.LogLevel): (r: RestAdapter.LogLevel)
    ensures RestAdapter.Name(r) == InfluxDB.Name(l)
  {
    match l
    case NONE => RestAdapter.NONE
    case BASIC => RestAdapter.BASIC
    case HEADERS => RestAdapter.HEADERS
    case FULL => RestAdapter.FULL
  }

  /** Sets the adapter's log level and returns the same client: endpoint and
      credentials are untouched. */
  function SetLogLevel(c: Client, l: InfluxDB.LogLevel): (r: Client)
    ensures RestAdapter.Name(r.adapterLevel) == InfluxDB.Name(l)
    ensures r.(adapterLevel := c.adapterLevel) == c
  {
    c.(adapterLevel := AdapterLevel(l))
  }

  /** A liveness check; the only request sent without credentials. */
  function Ping(c: Client): (r: Service.Request)
    ensures r.Ping?
    ensures Service.Auth(r) == None
  {
    Service.Ping
  }

  /** Writes series at a precision. The precision is encoded first, so an
      unsupported unit fails with no request at all. */
  function Write(c: Client, database: string, series: seq<Serie>, precision: TimeUnit): (r: Result<Service.Request, LocalError>)
    ensures r.Success? <==> Supported(precision)
    ensures r.Success? ==> && r.value.Write?
                           && r.value.database == database
                           && r.value.series == series
                           && ParsePrecision(r.value.timePrecision) == Some(precision)
                           && Service.Auth(r.value) == Some(c.Credentials())
    ensures r.Failure? ==> r.error == IllegalArgument(Some(UnsupportedUnitMessage))
  {
    match ToTimePrecision(precision)
    case Success(code) => Success(Service.Write(database, series, c.username, c.password, code))
    case Failure(e) => Failure(e)
  }

  /** Runs a query at a precision, with the same encoding and failure as Write. */
  function Query(c: Client, database: string, query: string, precision: TimeUnit): (r: Result<Service.Request, LocalError>)
    ensures r.Success? <==> Supported(precision)
    ensures r.Success? ==> && r.value.Query?
                           && r.value.database == database
                           && r.value.query == query
                           && ParsePrecision(r.value.timePrecision) == Some(precision)
                           && Service.Auth(r.value) == Some(c.Credentials())
    ensures r.Failure? ==> r.error == IllegalArgument(Some(UnsupportedUnitMessage))
  {
    match ToTimePrecision(precision)
    case Success(code) => Success(Service.Query(database, query, c.username, c.password, code))
    case Failure(e) => Failure(e)
  }

  /** Creates a database; name and replication factor travel in the body. */
  function CreateDatabase(c: Client, name: string, replicationFactor: int32): (r: Service.Request)
    ensures r.CreateDatabase?
    ensures r.db.name == name && r.db.replicationFactor == replicationFactor
    ensures Service.Auth(r) == Some(c.Credentials())
  {
    Service.CreateDatabase(Database(name, replicationFactor), c.username, c.password)
  }

  function DeleteDatabase(c: Client, name: string): (r: Service.Request)
    ensures r.DeleteDatabase? && r.name == name
    ensures Service.Auth(r) == Some(c.Credentials())
  {
    Service.DeleteDatabase(name, c.username, c.password)
  }

  function DescribeDatabases(c: Client): (r: Service.Request)
    ensures r.DescribeDatabases?
    ensures Service.Auth(r) == Some(c.Credentials())
  {
    Service.DescribeDatabases(c.username, c.password)
  }

  /** Creates a cluster admin: the body holds the new admin's name and password
      and nothing else. */
  function CreateClusterAdmin(c: Client, name: string, password: string): (r: Service.Request)
    ensures r.CreateClusterAdmin?
    ensures SetFields(r.user) == {Name, Password}
    ensures r.user.name == Some(name) && r.user.password == Some(password)
    ensures Service.Auth(r) == Some(c.Credentials())
  {
    Service.CreateClusterAdmin(NewUser.(name := Some(name), password := Some(password)), c.username, c.password)
  }

  function DeleteClusterAdmin(c: Client, name: string): (r: Service.Request)
    ensures r.DeleteClusterAdmin? && r.name == name
    ensures Service.Auth(r) == Some(c.Credentials())
  {
    Service.DeleteClusterAdmin(name, c.username, c.password)
  }

  function DescribeClusterAdmins(c: Client): (r: Service.Request)
    ensures r.DescribeClusterAdmins?
    ensures Service.Auth(r) == Some(c.Credentials())
  {
    Service.DescribeClusterAdmins(c.username, c.password)
  }

  /** Changes a cluster admin's password: the name is a separate argument and
      the body holds only the new password. */
  function UpdateClusterAdmin(c: Client, name: string, password: string): (r: Service.Request)
    ensures r.UpdateClusterAdmin? && r.name == name
    ensures SetFields(r.user) == {Password}
    ensures r.user.password == Some(password)
    ensures Service.Auth(r) == Some(c.Credentials())
  {
    Service.UpdateClusterAdmin(NewUser.(password := Some(password)), name, c.username, c.password)
  }

  /** Creates a database user: the body holds name, password and permissions,
      and leaves the admin flag unset. */
  function CreateDatabaseUser(c: Client, database: string, name: string, password: string, permissions: seq<string>): (r: Service.Request)
    ensures r.CreateDatabaseUser? && r.database == database
    ensures SetFields(r.user) == {Name, Password, Permissions}
    ensures r.user.name == Some(name) && r.user.password == Some(password) && r.user.permissions == Some(permissions)
    ensures Service.Auth(r) == Some(c.Credentials())
  {
    Service.CreateDatabaseUser(database, NewUser.(name := Some(name), password := Some(password), permissions := Some(permissions)), c.username, c.password)
  }

  function DeleteDatabaseUser(c: Client, database: string, name: string): (r: Service.Request)
    ensures r.DeleteDatabaseUser? && r.database == database && r.name == name
    ensures Service.Auth(r) == Some(c.Credentials())
  {
    Service.DeleteDatabaseUser(database, name, c.username, c.password)
  }

  function DescribeDatabaseUsers(c: Client, database: string): (r: Service.Request)
    ensures r.DescribeDatabaseUsers? && r.database == database
    ensures Service.Auth(r) == Some(c.Credentials())
  {
    Service.DescribeDatabaseUsers(database, c.username, c.password)
  }

  /** Updates a database user's password and permissions. The name is a separate
      argument; the admin flag is left unset. */
  function UpdateDatabaseUser(c: Client, database: string, name: string, password: string, permissions: seq<string>): (r: Service.Request)
    ensures r.UpdateDatabaseUser? && r.database == database && r.name == name
    ensures SetFields(r.user) == {Password, Permissions}
    ensures r.user.password == Some(password) && r.user.permissions == Some(permissions)
    ensures Service.Auth(r) == Some(c.Credentials())
  {
    Service.UpdateDatabaseUser(database, NewUser.(password := Some(password), permissions := Some(permissions)), name, c.username, c.password)
  }

  /** Changes a database user's admin flag and permissions through the same
      endpoint as UpdateDatabaseUser, but never sends a password. */
  function AlterDatabasePrivilege(c: Client, database: string, name: string, isAdmin: bool, permissions: seq<string>): (r: Service.Request)
    ensures r.UpdateDatabaseUser? && r.database == database && r.name == name
    ensures SetFields(r.user) == {Admin, Permissions}
    ensures r.user.admin == Some(isAdmin) && r.user.permissions == Some(permissions)
    ensures Service.Auth(r) == Some(c.Credentials())
  {
    Service.UpdateDatabaseUser(database, NewUser.(admin := Some(isAdmin), permissions := Some(permissions)), name, c.username, c.password)
  }

  /** Checks the caller's pair, not the client's, against a database. */
  function AuthenticateDatabaseUser(c: Client, database: string, username: string, password: string): (r: Service.Request)
    ensures r.AuthenticateDatabaseUser? && r.database == database
    ensures Service.Auth(r) == Some((username, password))
  {
    Service.AuthenticateDatabaseUser(database, username, password)
  }

  function GetContinuousQueries(c: Client, database: string): (r: Service.Request)
    ensures r.GetContinuousQueries? && r.database == database
    ensures Service.Auth(r) == Some(c.Credentials())
  {
    Service.GetContinuousQueries(database, c.username, c.password)
  }

  function DeleteContinuousQuery(c: Client, database: string, id: int32): (r: Service.Request)
    ensures r.DeleteContinuousQuery? && r.database == database && r.id == id
    ensures Service.Auth(r) == Some(c.Credentials())
  {
    Service.DeleteContinuousQuery(database, id, c.username, c.password)
  }

  /** The failure of an operation the client does not implement: an
      IllegalArgumentException without a message, before any request. */
  const NotImplemented: LocalError := IllegalArgument(None)

  function DeletePoints(c: Client, database: string, serieName: string): (r: Result<Service.Request, LocalError>)
    ensures r.Failure? && r.error.message.None?
  {
    Failure(NotImplemented)
  }

  function CreateScheduledDelete(c: Client, database: string, scheduledDelete: ScheduledDelete): (r: Result<Service.Request, LocalError>)
    ensures r.Failure? && r.error.message.None?
  {
    Failure(NotImplemented)
  }

  function DescribeScheduledDeletes(c: Client, database: string): (r: Result<Service.Request, LocalError>)
    ensures r.Failure? && r.error.message.None?
  {
    Failure(NotImplemented)
  }

  function RemoveScheduledDelete(c: Client, database: string, id: int32): (r: Result<Service.Request, LocalError>)
    ensures r.Failure? && r.error.message.None?
  {
    Failure(NotImplemented)
  }

  /** The four interface methods the client leaves unimplemented. */
  predicate Unimplemented(call: InfluxDB.Call) {
    call.DeletePoints? || call.CreateScheduledDelete? || call.DescribeScheduledDeletes? || call.RemoveScheduledDelete?
  }

  /** A call the client rejects locally: an unimplemented method, or a write or
      query at a unit with no wire code. */
  predicate RejectedLocally(call: InfluxDB.Call) {
    Unimplemented(call) || ((call.Write? || call.Query?) && !Supported(call.precision))
  }

  /** Dispatches a call to the method it names. A call fails exactly when it is
      rejected locally, and then with no request; the message tells an
      unimplemented method from a bad precision. Every request except a ping and
      an authentication check carries the client's own credentials; an
      authentication check carries the caller's. */
  function Invoke(c: Client, call: InfluxDB.Call): (r: Result<Service.Request, LocalError>)
    ensures r.Failure? <==> RejectedLocally(call)
    ensures r.Failure? ==> (r.error.message.None? <==> Unimplemented(call))
    ensures r.Success? && call.Ping? ==> Service.Auth(r.value) == None
    ensures r.Success? && call.AuthenticateDatabaseUser? ==> Service.Auth(r.value) == Some((call.username, call.password))
    ensures r.Success? && !call.Ping? && !call.AuthenticateDatabaseUser? ==> Service.Auth(r.value) == Some(c.Credentials())
  {
    match call
    case Ping => Success(Ping(c))
    case Write(database, series, precision) => Write(c, database, series, precision)
    case Query(database, query, precision) => Query(c, database, query, precision)
    case CreateDatabase(name, replicationFactor) => Success(CreateDatabase(c, name, replicationFactor))
    case DeleteDatabase(name) => Success(DeleteDatabase(c, name))
    case DescribeDatabases => Success(DescribeDatabases(c))
    case CreateClusterAdmin(name, password) => Success(CreateClusterAdmin(c, name, password))
    case DeleteClusterAdmin(name) => Success(DeleteClusterAdmin(c, name))
    case DescribeClusterAdmins => Success(DescribeClusterAdmins(c))
    case UpdateClusterAdmin(name, password) => Success(UpdateClusterAdmin(c, name, password))
    case CreateDatabaseUser(database, name, password, permissions) => Success(CreateDatabaseUser(c, database, name, password, permissions))
    case DeleteDatabaseUser(database, name) => Success(DeleteDatabaseUser(c, database, name))
    case DescribeDatabaseUsers(database) => Success(DescribeDatabaseUsers(c, database))
    case UpdateDatabaseUser(database, name, password, permissions) => Success(UpdateDatabaseUser(c, database, name, password, permissions))
    case AlterDatabasePrivilege(database, name, isAdmin, permissions) => Success(AlterDatabasePrivilege(c, database, name, isAdmin, permissions))
    case AuthenticateDatabaseUser(database, username, password) => Success(AuthenticateDatabaseUser(c, database, username, password))
    case GetContinuousQueries(database) => Success(GetContinuousQueries(c, database))
    case DeleteContinuousQuery(database, id) => Success(DeleteContinuousQuery(c, database, id))
    case DeletePoints(database, serieName) => DeletePoints(c, database, serieName)
    case CreateScheduledDelete(database, scheduledDelete) => CreateScheduledDelete(c, database, scheduledDelete)
    case DescribeScheduledDeletes(database) => DescribeScheduledDeletes(c, database)
    case RemoveScheduledDelete(database, id) => RemoveScheduledDelete(c, database, id)
  }
}
