/** Reading a request back as the call that produced it. The client's shaping
    loses nothing: each request names its call, and each readable request that
    carries the client's credentials is what that call sends. */
module Shaping {
  import opened Wrappers
  import opened Dto
  import opened Precision
  import opened Impl
  import InfluxDB
  import Service
  import RestAdapter

  /** The interface call a request stands for, or None when no call of the
      client produces a request of that shape (an unknown precision code, a
      user body with the wrong fields set). */
  function Interpret(req: Service.Request): Option<InfluxDB.Call> {
    match req
    case Ping => Some(InfluxDB.Ping)
    case Write(database, series, _, _, code) =>
      (match ParsePrecision(code)
       case Some(t) => Some(InfluxDB.Write(database, series, t))
       case None => None)
    case Query(database, query, _, _, code) =>
      (match ParsePrecision(code)
       case Some(t) => Some(InfluxDB.Query(database, query, t))
       case None => None)
    case CreateDatabase(db, _, _) => Some(InfluxDB.CreateDatabase(db.name, db.replicationFactor))
    case DeleteDatabase(name, _, _) => Some(InfluxDB.DeleteDatabase(name))
    case DescribeDatabases(_, _) => Some(InfluxDB.DescribeDatabases)
    case CreateClusterAdmin(user, _, _) =>
      (match user
       case User(Some(name), Some(password), None, None) => Some(InfluxDB.CreateClusterAdmin(name, password))
       case _ => None)
    case DeleteClusterAdmin(name, _, _) => Some(InfluxDB.DeleteClusterAdmin(name))
    case DescribeClusterAdmins(_, _) => Some(InfluxDB.DescribeClusterAdmins)
    case UpdateClusterAdmin(user, name, _, _) =>
      (match user
       case User(None, Some(password), None, None) => Some(InfluxDB.UpdateClusterAdmin(name, password))
       case _ => None)
    case CreateDatabaseUser(database, user, _, _) =>
      (match user
       case User(Some(name), Some(password), None, Some(permissions)) =>
         Some(InfluxDB.CreateDatabaseUser(database, name, password, permissions))
       case _ => None)
    case DeleteDatabaseUser(database, name, _, _) => Some(InfluxDB.DeleteDatabaseUser(database, name))
    case DescribeDatabaseUsers(database, _, _) => Some(InfluxDB.DescribeDatabaseUsers(database))
    case UpdateDatabaseUser(database, user, name, _, _) =>
      (match user
       case User(None, Some(password), None, Some(permissions)) =>
         Some(InfluxDB.UpdateDatabaseUser(database, name, password, permissions))
       case User(None, None, Some(isAdmin), Some(permissions)) =>
         Some(InfluxDB.AlterDatabasePrivilege(database, name, isAdmin, permissions))
       case _ => None)
    case AuthenticateDatabaseUser(database, username, password) =>
      Some(InfluxDB.AuthenticateDatabaseUser(database, username, password))
    case GetContinuousQueries(database, _, _) => Some(InfluxDB.GetContinuousQueries(database))
    case DeleteContinuousQuery(database, id, _, _) => Some(InfluxDB.DeleteContinuousQuery(database, id))
  }

  /** The request authenticates the way the client would send it: with the
      client's pair, unless it is a ping or an authentication check. */
  predicate CarriesClientCredentials(c: Client, req: Service.Request) {
    req.Ping? || req.AuthenticateDatabaseUser? || Service.Auth(req) == Some(c.Credentials())
  }

  /** Every request the client sends reads back as the call that sent it, and
      carries the credentials that call is meant to carry. */
  lemma RequestDeterminesCall(c: Client, call: InfluxDB.Call)
    ensures Invoke(c, call).Success? ==> && Interpret(Invoke(c, call).value) == Some(call)
                                         && CarriesClientCredentials(c, Invoke(c, call).value)
  {
  }

  /** Conversely, a readable request with the client's credentials is exactly
      what its call sends. */
  lemma CallDeterminesRequest(c: Client, req: Service.Request)
    requires Interpret(req).Some?
    requires CarriesClientCredentials(c, req)
    ensures Invoke(c, Interpret(req).value) == Success(req)
  {
  }

  /** Two calls that send the same request are the same call; in particular a
      privilege change and a user update never look alike to the service. */
  lemma ShapingInjective(c: Client, a: InfluxDB.Call, b: InfluxDB.Call)
    requires Invoke(c, a).Success?
    requires Invoke(c, a) == Invoke(c, b)
    ensures a == b
  {
  }

  /** What a call sends depends on the client only through its credentials. */
  lemma InvokeReadsOnlyCredentials(c1: Client, c2: Client, call: InfluxDB.Call)
    requires c1.Credentials() == c2.Credentials()
    ensures Invoke(c1, call) == Invoke(c2, call)
  {
  }

  /** Changing the log level changes no request. */
  lemma SetLogLevelKeepsRequests(c: Client, l: InfluxDB.LogLevel, call: InfluxDB.Call)
    ensures Invoke(SetLogLevel(c, l), call) == Invoke(c, call)
  {
  }

  /** Each client log level selects a different adapter level, and every
      adapter level is selected by one. */
  lemma AdapterLevelBijective(l1: InfluxDB.LogLevel, l2: InfluxDB.LogLevel, a: RestAdapter.LogLevel)
    ensures AdapterLevel(l1) == AdapterLevel(l2) ==> l1 == l2
    ensures exists l :: AdapterLevel(l) == a
  {
    match a
    case NONE => assert AdapterLevel(InfluxDB.NONE) == a;
    case BASIC => assert AdapterLevel(InfluxDB.BASIC) == a;
    case HEADERS => assert AdapterLevel(InfluxDB.HEADERS) == a;
    case FULL => assert AdapterLevel(InfluxDB.FULL) == a;
  }
}
