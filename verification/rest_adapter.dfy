/** The log levels of the HTTP adapter the client delegates to (retrofit.RestAdapter.LogLevel). */
module RestAdapter {

  datatype LogLevel = NONE | BASIC | HEADERS | FULL

  /** The constant's declared name. */
  function Name(l: LogLevel): string {
    match l
    case NONE => "NONE"
    case BASIC => "BASIC"
    case HEADERS => "HEADERS"
    case FULL => "FULL"
  }
}
