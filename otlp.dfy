/**
 * The already-decoded OTLP logs export request, reduced to what the ingestion
 * handler reads: attributes at the resource, scope and log-record levels.
 * A Go nil message pointer is `None`; a nil element of a repeated field reads
 * in Go exactly like an empty message (`KeyValue("", None)`,
 * `ResourceLogs(None, [])`, ...), so it needs no case of its own.
 */
module Otlp {
  import opened Wrappers

  /** The value of an attribute; only the string variant is distinguished. */
  datatype AnyValue = Str(s: string) | Other

  datatype KeyValue = KeyValue(key: string, value: Option<AnyValue>)

  datatype Resource = Resource(attributes: seq<KeyValue>)

  datatype InstrumentationScope = InstrumentationScope(attributes: seq<KeyValue>)

  datatype LogRecord = LogRecord(attributes: seq<KeyValue>)

  datatype ScopeLogs = ScopeLogs(scope: Option<InstrumentationScope>, logRecords: seq<LogRecord>)

  datatype ResourceLogs = ResourceLogs(resource: Option<Resource>, scopeLogs: seq<ScopeLogs>)

  datatype ExportLogsServiceRequest = ExportLogsServiceRequest(resourceLogs: seq<ResourceLogs>)

  datatype ExportLogsServiceResponse = ExportLogsServiceResponse

  /** The string held by a value, or "" when it holds another type. */
  function GetStringValue(v: AnyValue): string
  {
    match v
    case Str(s) => s
    case Other => ""
  }
}
