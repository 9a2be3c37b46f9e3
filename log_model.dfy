/** The audit record of models/log.model.js: its severity enumeration, its
    required fields and the defaults the schema fills in. The schema turns
    off `createdAt`/`updatedAt`, so a record holds nothing else. */
module LogModel {
  import opened Wrappers

  datatype Severity = Info | Warn | Error | Debug | Critical

  /** Free-form structured context (`Mixed` in the schema). */
  type Data = map<string, string>

  /** One stored record; `severity` is the schema's `type` field and
      `timestamp` is in milliseconds. */
  datatype LogEntry = LogEntry(
    severity: Severity,
    event: string,
    user: Option<string>,
    timestamp: int,
    message: string,
    data: Data)

  /** Why the schema refuses a record. */
  datatype ValidationError = BadType(given: string) | MissingEvent | MissingMessage

  function SeverityName(s: Severity): string
  {
    match s
    case Info => "info"
    case Warn => "warn"
    case Error => "error"
    case Debug => "debug"
    case Critical => "critical"
  }

  /** The `enum` check on `type`: exactly the five names, compared exactly. */
  function ParseSeverity(s: string): (r: Option<Severity>)
    ensures r.Some? ==> SeverityName(r.value) == s
    ensures r.None? ==> s != "info" && s != "warn" && s != "error" && s != "debug" && s != "critical"
  {
    if s == "info" then Some(Info)
    else if s == "warn" then Some(Warn)
    else if s == "error" then Some(Error)
    else if s == "debug" then Some(Debug)
    else if s == "critical" then Some(Critical)
    else None
  }

  /** Every severity's name parses back to it. */
  lemma SeverityRoundTrip(s: Severity)
    ensures ParseSeverity(SeverityName(s)) == Some(s)
  {
  }

  /** `new Log({...})` followed by validation on save: `type` must be one of
      the five names, `event` and `message` are required (Mongoose refuses an
      empty string for a required String), `user` defaults to null, `data` to
      `{}` and `timestamp` to the time of creation. */
  function NewLog(typ: string, event: string, message: string, user: Option<string>, data: Option<Data>, now: int)
    : (r: Result<LogEntry, ValidationError>)
    ensures r.Success? <==> ParseSeverity(typ).Some? && event != "" && message != ""
    ensures r.Success? ==>
      && SeverityName(r.value.severity) == typ
      && r.value.event == event && r.value.message == message
      && r.value.user == user
      && r.value.timestamp == now
      && r.value.data == (if data.Some? then data.value else map[])
  {
    match ParseSeverity(typ)
    case None => Failure(BadType(typ))
    case Some(sev) =>
      if event == "" then Failure(MissingEvent)
      else if message == "" then Failure(MissingMessage)
      else Success(LogEntry(sev, event, user, now, message, if data.Some? then data.value else map[]))
  }

  /** With neither user nor data given, the defaults are null and `{}`. */
  lemma DefaultsApplied(typ: string, event: string, message: string, now: int)
    requires NewLog(typ, event, message, None, None, now).Success?
    ensures NewLog(typ, event, message, None, None, now).value.user == None
    ensures NewLog(typ, event, message, None, None, now).value.data == map[]
    ensures NewLog(typ, event, message, None, None, now).value.timestamp == now
  {
  }
}
