/** The `Logger` of utils/logger.js over an in-memory collection: `log`
    appends one record, the five wrappers fix its type, and `searchLogs`
    reads without writing. */
module Logger {
  import opened Wrappers
  import opened LogModel
  import opened LogSearch

  /** Why a write or a read of the collection failed; `log` and `searchLogs`
      rethrow it to their caller. */
  datatype LogError = Invalid(reason: ValidationError) | StoreFailed

  datatype SearchFailure = SearchRejected(reason: SearchError) | SearchStoreFailed

  class LogStore {
    /** The records of the `logs` collection, in insertion order. */
    var entries: seq<LogEntry>

    constructor ()
      ensures entries == []
    {
      entries := [];
    }

    /** `Logger.log(type, event, message, user = null, data = {})`. `now` is
        `Date.now` at creation and `storeFails` makes `save` reject. A valid
        record that is saved is appended and returned; otherwise the error is
        rethrown and nothing is appended. */
    method Log(typ: string, event: string, message: string, user: Option<string>, data: Option<Data>, now: int, storeFails: bool)
      returns (r: Result<LogEntry, LogError>)
      modifies this
      ensures r.Success? <==> NewLog(typ, event, message, user, data, now).Success? && !storeFails
      ensures r.Success? ==> r.value == NewLog(typ, event, message, user, data, now).value
      ensures r.Success? ==> entries == old(entries) + [r.value]
      ensures r.Failure? ==> entries == old(entries)
    {
      var doc := NewLog(typ, event, message, user, data, now);
      if doc.Failure? {
        return Failure(Invalid(doc.error));
      }
      if storeFails {
        return Failure(StoreFailed);
      }
      entries := entries + [doc.value];
      r := Success(doc.value);
    }

    method Info(event: string, message: string, user: Option<string>, data: Option<Data>, now: int, storeFails: bool)
      returns (r: Result<LogEntry, LogError>)
      modifies this
      ensures r.Success? <==> event != "" && message != "" && !storeFails
      ensures r.Success? ==> r.value == LogEntry(Severity.Info, event, user, now, message, if data.Some? then data.value else map[])
      ensures r.Success? ==> entries == old(entries) + [r.value]
      ensures r.Failure? ==> entries == old(entries)
    {
      r := Log("info", event, message, user, data, now, storeFails);
    }

    method Warn(event: string, message: string, user: Option<string>, data: Option<Data>, now: int, storeFails: bool)
      returns (r: Result<LogEntry, LogError>)
      modifies this
      ensures r.Success? <==> event != "" && message != "" && !storeFails
      ensures r.Success? ==> r.value == LogEntry(Severity.Warn, event, user, now, message, if data.Some? then data.value else map[])
      ensures r.Success? ==> entries == old(entries) + [r.value]
      ensures r.Failure? ==> entries == old(entries)
    {
      r := Log("warn", event, message, user, data, now, storeFails);
    }

    method Error(event: string, message: string, user: Option<string>, data: Option<Data>, now: int, storeFails: bool)
      returns (r: Result<LogEntry, LogError>)
      modifies this
      ensures r.Success? <==> event != "" && message != "" && !storeFails
      ensures r.Success? ==> r.value == LogEntry(Severity.Error, event, user, now, message, if data.Some? then data.value else map[])
      ensures r.Success? ==> entries == old(entries) + [r.value]
      ensures r.Failure? ==> entries == old(entries)
    {
      r := Log("error", event, message, user, data, now, storeFails);
    }

    method Debug(event: string, message: string, user: Option<string>, data: Option<Data>, now: int, storeFails: bool)
      returns (r: Result<LogEntry, LogError>)
      modifies this
      ensures r.Success? <==> event != "" && message != "" && !storeFails
      ensures r.Success? ==> r.value == LogEntry(Severity.Debug, event, user, now, message, if data.Some? then data.value else map[])
      ensures r.Success? ==> entries == old(entries) + [r.value]
      ensures r.Failure? ==> entries == old(entries)
    {
      r := Log("debug", event, message, user, data, now, storeFails);
    }

    method Critical(event: string, message: string, user: Option<string>, data: Option<Data>, now: int, storeFails: bool)
      returns (r: Result<LogEntry, LogError>)
      modifies this
      ensures r.Success? <==> event != "" && message != "" && !storeFails
      ensures r.Success? ==> r.value == LogEntry(Severity.Critical, event, user, now, message, if data.Some? then data.value else map[])
      ensures r.Success? ==> entries == old(entries) + [r.value]
      ensures r.Failure? ==> entries == old(entries)
    {
      r := Log("critical", event, message, user, data, now, storeFails);
    }

    /** `Logger.searchLogs(filters, page, limit)`: reads the collection and
        writes nothing, so asking twice with no append in between gives the
        same answer. `storeFails` makes the count or the find reject. */
    method SearchLogs(filters: Filters, page: int, limit: int, storeFails: bool)
      returns (r: Result<SearchResult, SearchFailure>)
      requires limit >= 1
      ensures storeFails ==> r == Failure(SearchStoreFailed)
      ensures !storeFails ==> page < 1 ==> r == Failure(SearchRejected(NegativeSkip))
      ensures !storeFails && page >= 1 ==> r == Success(Search(entries, filters, page, limit).value)
    {
      if storeFails {
        return Failure(SearchStoreFailed);
      }
      var found := Search(entries, filters, page, limit);
      match found
      case Failure(e) => r := Failure(SearchRejected(e));
      case Success(v) => r := Success(v);
    }
  }
}
