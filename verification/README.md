# InfluxDB Java client: request shaping

This project models the client implementation of the InfluxDB Java client
(`InfluxDBImpl`). The client does no HTTP work itself. Each interface method
other than `setLogLevel` either turns its arguments into exactly one call on the HTTP service interface
(`InfluxDBService`) or fails locally with an `IllegalArgumentException`
before any request is made. `setLogLevel` only changes the adapter's log level
and returns the same client. The model keeps that shape:

- `Service.Request` has one constructor per service call, carrying that call's arguments.
- `InfluxDB.Call` has one constructor per interface method other than `setLogLevel`, carrying
  that method's arguments.
- Each method of `Impl` is a pure function from a `Client` (endpoint, configured
  username/password, adapter log level) and the method's arguments. It returns a request,
  or a `Result` whose failure is an `Errors.LocalError`.
- `Dto.User` is the user body. It has four optional fields: name, password, admin flag and
  permissions. The model treats a field as set exactly when the client calls its setter.
- `Precision.ToTimePrecision` is the time-unit encoder. It maps SECONDS to "s", MILLISECONDS
  to "m" and MICROSECONDS to "u", and fails with a fixed message for every other unit.
- `Impl.AdapterLevel` maps each client log level to the adapter level of the same name.

Every operation has a partner:
- `Precision.ParsePrecision` reads a wire code back as a unit.
- `Shaping.Interpret` reads a request back as the interface call that produced it. Two
  lemmas show that shaping loses nothing, in both directions.
- `Session.Run` follows one client through a whole sequence of calls and log-level changes.
  It shows that the credentials fixed at construction are the ones every later request
  carries.

The "m" code for milliseconds is kept as the code has it, and MINUTES has no code at all.
Two requests do not carry the configured credentials: `ping` sends none, and
`authenticateDatabaseUser` sends the caller's pair.

## Model

| member | source | states |
|---|---|---|
| Precision.ToTimePrecision | src/main/java/org/influxdb/impl/InfluxDBImpl.java:188-198 | only SECONDS, MILLISECONDS and MICROSECONDS have a code; each code is one character and reads back as its unit ("s", "m", "u"); every other unit fails with the fixed IllegalArgumentException message |
| Precision.ParseThenEncode | src/main/java/org/influxdb/impl/InfluxDBImpl.java:188-195 | every wire code the service can receive from this client is the code of the unit it reads back as |
| Precision.EncodingInjective | src/main/java/org/influxdb/impl/InfluxDBImpl.java:188-195 | no two units share a wire code |
| Impl.NewClient | src/main/java/org/influxdb/impl/InfluxDBImpl.java:17-32 | construction only records endpoint and credential pair; nothing is sent |
| Impl.AdapterLevel | src/main/java/org/influxdb/impl/InfluxDBImpl.java:34-51 | each of NONE, BASIC, HEADERS, FULL selects the adapter level of the same name |
| Impl.SetLogLevel | src/main/java/org/influxdb/impl/InfluxDBImpl.java:34-53 | sets the same-named adapter level and returns the client with endpoint and credentials unchanged |
| Impl.Ping | src/main/java/org/influxdb/impl/InfluxDBImpl.java:55-58 | a ping request, carrying no credentials |
| Impl.Write | src/main/java/org/influxdb/impl/InfluxDBImpl.java:60-63 | fails exactly when the precision unit has no code, and then sends nothing; otherwise one write request with database, series, the configured pair and the unit's code |
| Impl.Query | src/main/java/org/influxdb/impl/InfluxDBImpl.java:65-68 | as Write, for a query: the query text is passed through unchanged |
| Impl.CreateDatabase | src/main/java/org/influxdb/impl/InfluxDBImpl.java:70-74 | a database-creation request whose body holds name and replication factor, with the configured pair |
| Impl.DeleteDatabase | src/main/java/org/influxdb/impl/InfluxDBImpl.java:76-79 | a deletion request for the named database, with the configured pair |
| Impl.DescribeDatabases | src/main/java/org/influxdb/impl/InfluxDBImpl.java:81-84 | a listing request with the configured pair |
| Impl.CreateClusterAdmin | src/main/java/org/influxdb/impl/InfluxDBImpl.java:86-92 | the body sets exactly name and password, to the given values |
| Impl.DeleteClusterAdmin | src/main/java/org/influxdb/impl/InfluxDBImpl.java:94-97 | a deletion request for the named admin, with the configured pair |
| Impl.DescribeClusterAdmins | src/main/java/org/influxdb/impl/InfluxDBImpl.java:99-102 | a listing request with the configured pair |
| Impl.UpdateClusterAdmin | src/main/java/org/influxdb/impl/InfluxDBImpl.java:104-109 | the body sets only the password; the admin's name travels as a separate argument |
| Impl.CreateDatabaseUser | src/main/java/org/influxdb/impl/InfluxDBImpl.java:111-119 | the body sets exactly name, password and permissions; the admin flag stays unset |
| Impl.DeleteDatabaseUser | src/main/java/org/influxdb/impl/InfluxDBImpl.java:121-124 | a deletion request for the named user of the named database, with the configured pair |
| Impl.DescribeDatabaseUsers | src/main/java/org/influxdb/impl/InfluxDBImpl.java:126-129 | a listing request for the database, with the configured pair |
| Impl.UpdateDatabaseUser | src/main/java/org/influxdb/impl/InfluxDBImpl.java:131-138 | the body sets exactly password and permissions; the name is a separate argument; the admin flag stays unset |
| Impl.AlterDatabasePrivilege | src/main/java/org/influxdb/impl/InfluxDBImpl.java:140-147 | goes to the same endpoint as UpdateDatabaseUser, but the body sets exactly the admin flag and permissions and never a password |
| Impl.AuthenticateDatabaseUser | src/main/java/org/influxdb/impl/InfluxDBImpl.java:149-152 | carries the caller-supplied username/password, not the configured pair |
| Impl.GetContinuousQueries | src/main/java/org/influxdb/impl/InfluxDBImpl.java:154-157 | a listing request for the database, with the configured pair |
| Impl.DeleteContinuousQuery | src/main/java/org/influxdb/impl/InfluxDBImpl.java:159-162 | a deletion request for the query id in the database, with the configured pair |
| Impl.DeletePoints | src/main/java/org/influxdb/impl/InfluxDBImpl.java:164-168 | always fails with an IllegalArgumentException without a message, and sends nothing |
| Impl.CreateScheduledDelete | src/main/java/org/influxdb/impl/InfluxDBImpl.java:170-174 | always fails with an IllegalArgumentException without a message, and sends nothing |
| Impl.DescribeScheduledDeletes | src/main/java/org/influxdb/impl/InfluxDBImpl.java:176-180 | always fails with an IllegalArgumentException without a message, and sends nothing |
| Impl.RemoveScheduledDelete | src/main/java/org/influxdb/impl/InfluxDBImpl.java:182-186 | always fails with an IllegalArgumentException without a message, and sends nothing |
| Impl.Invoke | src/main/java/org/influxdb/impl/InfluxDBImpl.java:55-186 | a call fails exactly when it is one of the four unimplemented methods or a write/query at an unsupported unit; a missing message tells the former apart; every request except ping and authentication carries exactly the configured pair |
| Shaping.RequestDeterminesCall | src/main/java/org/influxdb/impl/InfluxDBImpl.java:55-162 | every request the client sends reads back as the call that sent it, and authenticates as that call should |
| Shaping.CallDeterminesRequest | src/main/java/org/influxdb/impl/InfluxDBImpl.java:55-162 | every readable request authenticating as the client would is exactly what its call sends |
| Shaping.ShapingInjective | src/main/java/org/influxdb/impl/InfluxDBImpl.java:131-147 | distinct calls never send the same request, so a privilege change is never mistaken for a user update |
| Shaping.InvokeReadsOnlyCredentials | src/main/java/org/influxdb/impl/InfluxDBImpl.java:17-25 | the request a call sends depends on the client only through its credential pair |
| Shaping.SetLogLevelKeepsRequests | src/main/java/org/influxdb/impl/InfluxDBImpl.java:34-53 | changing the log level changes no request |
| Shaping.AdapterLevelBijective | src/main/java/org/influxdb/impl/InfluxDBImpl.java:34-51 | the log-level mapping is one-to-one and onto the adapter's levels |
| Session.Run | src/main/java/org/influxdb/impl/InfluxDBImpl.java:16-53 | over any sequence of calls and log-level changes, endpoint and credentials never change; each call sends what the fresh client would send; the last setLogLevel decides the adapter level, whatever calls follow it |
| Session.ConstructorCredentialsPersist | src/main/java/org/influxdb/impl/InfluxDBImpl.java:17-25 | every request a client sends during its lifetime authenticates with the constructor's pair, except pings and authentication checks |

## Left out

- HTTP transport and Retrofit adapter construction are not modelled. Binding the endpoint, serialising bodies and sending requests belong to an external library.
- The adapter's starting log level is not read from any source. The model assumes the builder's default, NONE.
- InfluxDBErrorHandler is not part of this model, so nothing is stated about telling transport failures from service failures or about extracting messages.
- Responses are not modelled: Pong, lists of series, databases, users and continuous queries. They are opaque payloads that the client returns unchanged.
- The fields of Serie and ScheduledDelete are not modelled. Both are opaque payloads that pass through unread.
- InfluxDBService is not part of this model. Each endpoint's parameter list is taken from the call site in the client.
- The effect of the log level on actual logging is not modelled. It is a side effect inside the adapter.
- Null arguments are not modelled. A null log level or time unit makes the Java switch throw NullPointerException, and a null string is passed through. The model's strings and enums are never null.
- How an unset User field is serialised is not modelled. For example, an unset admin flag might be sent as false, but that depends on the User class, which is not part of this model.
- Concurrency is not modelled. The client holds no mutable state that the shape of a request depends on.
- The User class is not part of this model. The model assumes that `new User()` leaves every field unset and that each setter sets only its own field.
