/** A client over its lifetime: a sequence of interface calls and log-level
    changes on one constructed client. Only the log level ever changes, so every
    request is the one the freshly constructed client would send. */
module Session {
  import opened Wrappers
  import opened Errors
  import opened Impl
  import Shaping
  import InfluxDB
  import Service

  /** One thing a caller does with the client. */
  datatype Step = Do(call: InfluxDB.Call) | SetLevel(level: InfluxDB.LogLevel)

  /** What a step produced: a request, a local failure, or (for setLogLevel)
      the client itself back. */
  datatype Event = Sent(request: Service.Request) | Rejected(error: LocalError) | LevelSet

  function Outcome(r: Result<Service.Request, LocalError>): Event {
    match r
    case Success(req) => Sent(req)
    case Failure(e) => Rejected(e)
  }

  /** Clients with the same credentials send the same request for every call. */
  lemma SameCredentialsSameRequests(c1: Client, c2: Client)
    requires c1.Credentials() == c2.Credentials()
    ensures forall call :: Invoke(c1, call) == Invoke(c2, call)
  {
    forall call: InfluxDB.Call
      ensures Invoke(c1, call) == Invoke(c2, call)
    {
      Shaping.InvokeReadsOnlyCredentials(c1, c2, call);
    }
  }

  /** Runs the steps in order on client c, returning the final client and one
      event per step. Endpoint and credentials never change; each call's event
      is what c itself produces for that call, whatever log levels were set
      before it; the last setLogLevel decides the adapter level, whatever calls
      follow it; and a run of calls alone leaves the client as it was. */
  function Run(c: Client, steps: seq<Step>): (r: (Client, seq<Event>))
    decreases |steps|
    ensures |r.1| == |steps|
    ensures r.0.Credentials() == c.Credentials() && r.0.endpoint == c.endpoint
    ensures forall i :: 0 <= i < |steps| && steps[i].Do? ==> r.1[i] == Outcome(Invoke(c, steps[i].call))
    ensures forall i :: 0 <= i < |steps| && steps[i].SetLevel? ==> r.1[i] == LevelSet
    ensures forall j :: 0 <= j < |steps| && steps[j].SetLevel? && (forall k :: j < k < |steps| ==> steps[k].Do?) ==>
              r.0.adapterLevel == AdapterLevel(steps[j].level)
    ensures (forall i :: 0 <= i < |steps| ==> steps[i].Do?) ==> r.0 == c
  {
    if |steps| == 0 then (c, [])
    else
      var next := match steps[0]
        case Do(_) => c
        case SetLevel(l) => SetLogLevel(c, l);
      var event := match steps[0]
        case Do(call) => Outcome(Invoke(c, call))
        case SetLevel(_) => LevelSet;
      var rest := Run(next, steps[1..]);
      SameCredentialsSameRequests(next, c);
      (rest.0, [event] + rest.1)
  }

  /** Over the whole life of a client built with a username/password pair,
      every request it sends authenticates with that pair, except pings (no
      credentials) and authentication checks (the caller's pair). */
  lemma ConstructorCredentialsPersist(url: string, username: string, password: string, steps: seq<Step>)
    ensures var events := Run(NewClient(url, username, password), steps).1;
            forall i ::
              (0 <= i < |steps| && steps[i].Do? && !steps[i].call.Ping? && !steps[i].call.AuthenticateDatabaseUser? && events[i].Sent?)
              ==> Service.Auth(events[i].request) == Some((username, password))
  {
  }
}
