/** The analytics record that the pump receives, reduced to the fourteen
    fields the Splunk pump reads, and the registry that maps a configured
    field name to the value it selects from a record. */
module Analytics {
  import opened Wrappers

  /** Nanoseconds in one second. */
  const NanosPerSecond: int := 1_000_000_000

  /** A point in time (Go's `time.Time`), reduced to the instant it denotes:
      nanoseconds since 1970-01-01T00:00:00Z, negative before it. The
      location and the monotonic clock reading do not affect `Unix()`. */
  datatype Instant = Instant(nanos: int)

  /** `time.Unix(sec, nsec)`: the instant `sec` seconds and `nsec`
      nanoseconds after the epoch (`nsec` may lie outside [0, 1e9)). */
  function FromUnix(sec: int, nsec: int): Instant
  {
    Instant(sec * NanosPerSecond + nsec)
  }

  /** `t.Unix()`: the whole seconds elapsed since the epoch, rounded towards
      minus infinity (Go keeps the sub-second part in [0, 1e9) also before
      the epoch). */
  function UnixSeconds(t: Instant): (sec: int)
    ensures sec * NanosPerSecond <= t.nanos < (sec + 1) * NanosPerSecond
  {
    t.nanos / NanosPerSecond
  }

  /** `Unix()` undoes `time.Unix(sec, nsec)` for a normalised `nsec`. */
  lemma UnixSecondsOfFromUnix(sec: int, nsec: int)
    requires 0 <= nsec < NanosPerSecond
    ensures UnixSeconds(FromUnix(sec, nsec)) == sec
  {
  }

  /** A value placed in a Splunk event (`interface{}` in Go). `Null` is the
      zero value Go yields for a name missing from a map. */
  datatype Value =
    | Str(s: string)
    | Int(i: int)
    | Time(t: Instant)
    | Null

  /** One analytics record, with the fields the pump reads. */
  datatype AnalyticsRecord = AnalyticsRecord(
    httpMethod: string,
    path: string,
    responseCode: int,
    apiKey: string,
    timeStamp: Instant,
    apiVersion: string,
    apiName: string,
    apiId: string,
    orgId: string,
    oauthId: string,
    rawRequest: string,
    requestTime: int,
    rawResponse: string,
    ipAddress: string)

  /** The event field name that carries the API key, the redaction target. */
  const ApiKeyField: string := "api_key"

  /** The names of the fourteen fields of the default event, which are also
      the names the field registry knows. */
  const FieldNames: set<string> := {
    "method", "path", "response_code", "api_key", "time_stamp",
    "api_version", "api_name", "api_id", "org_id", "oauth_id",
    "raw_request", "request_time", "raw_response", "ip_address"
  }

  /** The field registry: for a known field name, the value it selects from
      `rec`; for any other name, nothing. */
  function Lookup(rec: AnalyticsRecord, name: string): (r: Option<Value>)
    ensures r.Some? <==> name in FieldNames
    ensures name == ApiKeyField ==> r == Some(Str(rec.apiKey))
    ensures name == "time_stamp" ==> r == Some(Time(rec.timeStamp))
  {
    match name
    case "method" => Some(Str(rec.httpMethod))
    case "path" => Some(Str(rec.path))
    case "response_code" => Some(Int(rec.responseCode))
    case "api_key" => Some(Str(rec.apiKey))
    case "time_stamp" => Some(Time(rec.timeStamp))
    case "api_version" => Some(Str(rec.apiVersion))
    case "api_name" => Some(Str(rec.apiName))
    case "api_id" => Some(Str(rec.apiId))
    case "org_id" => Some(Str(rec.orgId))
    case "oauth_id" => Some(Str(rec.oauthId))
    case "raw_request" => Some(Str(rec.rawRequest))
    case "request_time" => Some(Int(rec.requestTime))
    case "raw_response" => Some(Str(rec.rawResponse))
    case "ip_address" => Some(Str(rec.ipAddress))
    case _ => None
  }
}
