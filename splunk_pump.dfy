/** The Splunk pump: projection of an analytics record onto a Splunk event
    (field selection and API-key redaction), initialisation of the client
    from the pump configuration, and the batch loop that sends one event per
    record. */
module SplunkPump {
  import opened Wrappers
  import opened Analytics
  import opened SplunkClient

  /** The pump configuration (`SplunkPumpConfig`). */
  datatype PumpConfig = PumpConfig(
    collectorToken: string,
    collectorUrl: string,
    sslInsecureSkipVerify: bool,
    sslCertFile: string,
    sslKeyFile: string,
    sslServerName: string,
    obfuscateApiKeys: bool,
    obfuscateApiKeysLength: int,
    fields: seq<string>)

  /** The configuration of a pump that was never initialised. */
  const ZeroConfig: PumpConfig := PumpConfig("", "", false, "", "", "", false, 0, [])

  /** What replaces the hidden part of a redacted API key. */
  const MaskPrefix: string := "****"

  /** A redacted API key: the mask followed by the last `n` characters of
      `key`, which must be longer than `n`. */
  function Mask(key: string, n: nat): (r: string)
    requires |key| > n
    ensures |r| == n + |MaskPrefix|
    ensures r[..|MaskPrefix|] == MaskPrefix
    ensures r[|MaskPrefix|..] == key[|key| - n..]
  {
    MaskPrefix + key[|key| - n..]
  }

  /** Slicing the last `obfuscate_api_keys_length` characters needs a length
      that is not negative (a negative one makes the slice panic); this is
      only reached when redaction is on and the API key is among the
      requested `names`. */
  predicate RedactionDefined(config: PumpConfig, names: seq<string>)
  {
    config.obfuscateApiKeys && ApiKeyField in names ==> config.obfuscateApiKeysLength >= 0
  }

  /** What the configured-field loop emits for one requested `name`: nothing
      for a name the registry does not know; for the API key under
      redaction, the masked key when it is longer than the visible suffix and
      nothing otherwise; the registry's value for every other known name.
      The test on line 158 is read as "skip names the registry does NOT
      know", the evident intent (see `SelectedAsWritten` for the test as it
      stands). */
  function Selected(config: PumpConfig, rec: AnalyticsRecord, name: string): (r: Option<Value>)
    requires RedactionDefined(config, [name])
    ensures r.Some? <==> name in FieldNames && !(name == ApiKeyField && KeyWithheld(config, rec))
    ensures r.Some? && name == ApiKeyField && config.obfuscateApiKeys ==>
      |rec.apiKey| > config.obfuscateApiKeysLength &&
      r.value == Str(Mask(rec.apiKey, config.obfuscateApiKeysLength))
    ensures r.Some? && !(name == ApiKeyField && config.obfuscateApiKeys) ==> Lookup(rec, name) == r
  {
    match Lookup(rec, name)
    case None => None
    case Some(v) =>
      if name == ApiKeyField && config.obfuscateApiKeys then
        if |rec.apiKey| > config.obfuscateApiKeysLength then
          Some(Str(Mask(rec.apiKey, config.obfuscateApiKeysLength)))
        else
          None
      else
        Some(v)
  }

  /** The event built from the requested names `names`: one entry per
      requested name that emits something. */
  function Projected(config: PumpConfig, names: seq<string>, rec: AnalyticsRecord): (event: map<string, Value>)
    requires RedactionDefined(config, names)
    ensures forall name :: name in event <==>
      name in names && name in FieldNames && !(name == ApiKeyField && KeyWithheld(config, rec))
  {
    map name | name in names && Selected(config, rec, name).Some? :: Selected(config, rec, name).value
  }

  /** The default event: the fourteen registry fields, copied verbatim. */
  function DefaultEvent(rec: AnalyticsRecord): (event: map<string, Value>)
    ensures event.Keys == FieldNames
    ensures forall name :: name in event ==> Lookup(rec, name) == Some(event[name])
  {
    map[
      "method" := Str(rec.httpMethod),
      "path" := Str(rec.path),
      "response_code" := Int(rec.responseCode),
      "api_key" := Str(rec.apiKey),
      "time_stamp" := Time(rec.timeStamp),
      "api_version" := Str(rec.apiVersion),
      "api_name" := Str(rec.apiName),
      "api_id" := Str(rec.apiId),
      "org_id" := Str(rec.orgId),
      "oauth_id" := Str(rec.oauthId),
      "raw_request" := Str(rec.rawRequest),
      "request_time" := Int(rec.requestTime),
      "raw_response" := Str(rec.rawResponse),
      "ip_address" := Str(rec.ipAddress)
    ]
  }

  /** Whether the API key is withheld: redaction is on and the key is no
      longer than the suffix that would stay visible. */
  predicate KeyWithheld(config: PumpConfig, rec: AnalyticsRecord)
  {
    config.obfuscateApiKeys && |rec.apiKey| <= config.obfuscateApiKeysLength
  }

  /** The event sent for `rec`: the configured projection when `fields` is
      non-empty, the default event otherwise. */
  function Event(config: PumpConfig, rec: AnalyticsRecord): (event: map<string, Value>)
    requires RedactionDefined(config, config.fields)
    ensures |config.fields| == 0 ==> event.Keys == FieldNames
    ensures |config.fields| > 0 ==>
      forall name :: name in event <==>
        name in config.fields && name in FieldNames &&
        !(name == ApiKeyField && KeyWithheld(config, rec))
    ensures forall name :: name in event ==>
      if name == ApiKeyField && config.obfuscateApiKeys && |config.fields| > 0
      then
        && 0 <= config.obfuscateApiKeysLength < |rec.apiKey|
        && event[name] == Str(Mask(rec.apiKey, config.obfuscateApiKeysLength))
      else Lookup(rec, name) == Some(event[name])
  {
    if |config.fields| > 0 then Projected(config, config.fields, rec) else DefaultEvent(rec)
  }

  /** Requesting one more name adds at most the entry for that name. */
  lemma ProjectedSnoc(config: PumpConfig, names: seq<string>, name: string, rec: AnalyticsRecord)
    requires RedactionDefined(config, names + [name])
    ensures Projected(config, names + [name], rec) ==
      match Selected(config, rec, name)
      case None => Projected(config, names, rec)
      case Some(v) => Projected(config, names, rec)[name := v]
  {
  }

  /** The event-building part of `WriteData`: start from an empty map and,
      when fields are configured, add the entry of each requested name in
      turn; otherwise take the default event. */
  method BuildEvent(config: PumpConfig, rec: AnalyticsRecord) returns (event: map<string, Value>)
    requires RedactionDefined(config, config.fields)
    ensures event == Event(config, rec)
  {
    event := map[];
    if |config.fields| > 0 {
      var i := 0;
      while i < |config.fields|
        invariant 0 <= i <= |config.fields|
        invariant event == Projected(config, config.fields[..i], rec)
      {
        var field := config.fields[i];
        assert config.fields[..i + 1] == config.fields[..i] + [field];
        ProjectedSnoc(config, config.fields[..i], field, rec);
        var known := Lookup(rec, field);
        if known.Some? {
          if field == ApiKeyField && config.obfuscateApiKeys {
            var apiKey := rec.apiKey;
            if |apiKey| > config.obfuscateApiKeysLength {
              event := event[field := Str(Mask(apiKey, config.obfuscateApiKeysLength))];
            }
          } else {
            event := event[field := known.value];
          }
        }
        i := i + 1;
      }
      assert config.fields[..i] == config.fields;
    } else {
      event := DefaultEvent(rec);
    }
  }

  /** With no fields configured the event holds all fourteen fields verbatim;
      the API key stays in clear even when redaction is on. */
  lemma DefaultEventIsVerbatim(config: PumpConfig, rec: AnalyticsRecord)
    requires |config.fields| == 0
    ensures Event(config, rec).Keys == FieldNames
    ensures forall name :: name in FieldNames ==> Some(Event(config, rec)[name]) == Lookup(rec, name)
    ensures Event(config, rec)[ApiKeyField] == Str(rec.apiKey)
  {
  }

  /** With fields configured, nothing outside them is emitted. */
  lemma ConfiguredEventWithinFields(config: PumpConfig, rec: AnalyticsRecord)
    requires RedactionDefined(config, config.fields) && |config.fields| > 0
    ensures forall name :: name in Event(config, rec) ==> name in config.fields
  {
  }

  /** A redacted key longer than the visible suffix is sent as the mask and
      its last `n` characters: `n + 4` characters ending with the key's. */
  lemma RedactedKeyShape(config: PumpConfig, rec: AnalyticsRecord)
    requires config.obfuscateApiKeys && ApiKeyField in config.fields
    requires 0 <= config.obfuscateApiKeysLength < |rec.apiKey|
    ensures ApiKeyField in Event(config, rec)
    ensures Event(config, rec)[ApiKeyField].Str?
    ensures var s := Event(config, rec)[ApiKeyField].s;
      && |s| == config.obfuscateApiKeysLength + 4
      && s[..4] == "****"
      && s[4..] == rec.apiKey[|rec.apiKey| - config.obfuscateApiKeysLength..]
  {
  }

  /** A key no longer than the visible suffix is not sent at all. */
  lemma ShortKeyOmitted(config: PumpConfig, rec: AnalyticsRecord)
    requires config.obfuscateApiKeys && |config.fields| > 0
    requires 0 <= config.obfuscateApiKeysLength && |rec.apiKey| <= config.obfuscateApiKeysLength
    ensures ApiKeyField !in Event(config, rec)
  {
  }

  /** Requesting a name the registry does not know changes nothing, as long
      as some field is configured already. */
  lemma UnknownNameIgnored(config: PumpConfig, rec: AnalyticsRecord, name: string)
    requires RedactionDefined(config, config.fields) && |config.fields| > 0 && name !in FieldNames
    ensures RedactionDefined(config, config.fields + [name])
    ensures Event(config.(fields := config.fields + [name]), rec) == Event(config, rec)
  {
  }

  /** The selection test of line 158 as it stands: a name the registry knows
      is skipped, and a name it does not know reaches line 171, which stores
      what the registry holds for it, Go's `nil`. */
  function SelectedAsWritten(rec: AnalyticsRecord, name: string): (r: Option<Value>)
    ensures r.Some? <==> name !in FieldNames
    ensures r.Some? ==> r.value == Null
  {
    if Lookup(rec, name).Some? then None else Some(Null)
  }

  /** The configured-field loop with the test of line 158 as it stands. */
  function ProjectedAsWritten(names: seq<string>, rec: AnalyticsRecord): (event: map<string, Value>)
    ensures forall name :: name in event ==> name !in FieldNames && event[name] == Null
  {
    map name | name in names && SelectedAsWritten(rec, name).Some? :: Null
  }

  /** As written, a configured projection never carries a record value: it
      holds exactly the unknown requested names, each mapped to `nil`. */
  lemma AsWrittenEmitsOnlyUnknownNames(names: seq<string>, rec: AnalyticsRecord)
    ensures forall name :: name in ProjectedAsWritten(names, rec) <==> name in names && name !in FieldNames
    ensures forall name :: name in ProjectedAsWritten(names, rec) ==> ProjectedAsWritten(names, rec)[name] == Null
  {
  }

  /** Requesting `method` alone: as written the event is empty, while the
      evident intent sends the record's method. */
  lemma InvertedTestCounterexample(rec: AnalyticsRecord)
    ensures ProjectedAsWritten(["method"], rec) == map[]
    ensures Event(ZeroConfig.(fields := ["method"]), rec) == map["method" := Str(rec.httpMethod)]
  {
  }

  /** The requests `WriteData` hands to the HTTP client for `data`, in order. */
  function Requests(c: Client, config: PumpConfig, data: seq<AnalyticsRecord>): (reqs: seq<Request>)
    requires RedactionDefined(config, config.fields)
    ensures |reqs| == |data|
  {
    if data == [] then []
    else [Send(c, Event(config, data[0]), data[0].timeStamp)] + Requests(c, config, data[1..])
  }

  /** The `i`-th request carries the event of the `i`-th record, stamped
      with that record's time. */
  lemma {:induction false} RequestsAt(c: Client, config: PumpConfig, data: seq<AnalyticsRecord>, i: int)
    requires RedactionDefined(config, config.fields) && 0 <= i < |data|
    ensures Requests(c, config, data)[i] == Send(c, Event(config, data[i]), data[i].timeStamp)
  {
    if i > 0 {
      RequestsAt(c, config, data[1..], i - 1);
    }
  }

  /** Sending a batch in two parts sends what sending it at once does. */
  lemma {:induction false} RequestsAppend(c: Client, config: PumpConfig, a: seq<AnalyticsRecord>, b: seq<AnalyticsRecord>)
    requires RedactionDefined(config, config.fields)
    ensures Requests(c, config, a + b) == Requests(c, config, a) + Requests(c, config, b)
  {
    if a == [] {
      assert a + b == b;
    } else {
      assert (a + b)[0] == a[0] && (a + b)[1..] == a[1..] + b;
      RequestsAppend(c, config, a[1..], b);
    }
  }

  /** Sending one more record appends that record's request. */
  lemma RequestsSnoc(c: Client, config: PumpConfig, data: seq<AnalyticsRecord>, i: int)
    requires RedactionDefined(config, config.fields) && 0 <= i < |data|
    ensures Requests(c, config, data[..i + 1])
         == Requests(c, config, data[..i]) + [Send(c, Event(config, data[i]), data[i].timeStamp)]
  {
    assert data[..i + 1] == data[..i] + [data[i]];
    RequestsAppend(c, config, data[..i], [data[i]]);
  }

  /** A Splunk pump (`SplunkPump`): its configuration, its client (`nil`
      until `Init` succeeds) and, as a ghost, the requests it has sent. */
  class Pump {
    var config: PumpConfig
    var client: Option<Client>
    ghost var sent: seq<Request>

    /** `New`: a pump that has not been initialised. */
    constructor ()
      ensures config == ZeroConfig && client == None && sent == []
    {
      config := ZeroConfig;
      client := None;
      sent := [];
    }

    /** `Init`, from the decoded configuration on: keeps the configuration
        and builds the client; on failure the client is `nil` and the error
        is returned. */
    method Init(cfg: PumpConfig, parse: string -> Option<Url>,
                loadKeyPair: (string, string) -> Option<Certificate>)
      returns (err: Option<ClientError>)
      modifies this`config, this`client
      ensures config == cfg
      ensures var outcome := NewSplunkClient(cfg.collectorToken, cfg.collectorUrl,
        cfg.sslInsecureSkipVerify, cfg.sslCertFile, cfg.sslKeyFile, cfg.sslServerName,
        parse, loadKeyPair);
        && client == outcome.ToOption()
        && (err.Some? <==> outcome.Failed?)
        && (outcome.Failed? ==> err.value == outcome.error)
    {
      config := cfg;
      var outcome := NewSplunkClient(cfg.collectorToken, cfg.collectorUrl,
        cfg.sslInsecureSkipVerify, cfg.sslCertFile, cfg.sslKeyFile, cfg.sslServerName,
        parse, loadKeyPair);
      client := outcome.ToOption();
      err := if outcome.Failed? then Some(outcome.error) else None;
    }

    /** `WriteData`: for each record in order, build its event and send it
        once, stamped with the record's time. `deliver` stands for the HTTP
        round trip; its outcome is discarded and the batch reports no error. */
    method WriteData(data: seq<AnalyticsRecord>, deliver: Request -> Option<string>)
      returns (err: Option<string>)
      requires |data| > 0 ==> client.Some? && RedactionDefined(config, config.fields)
      modifies this`sent
      ensures |data| == 0 ==> sent == old(sent)
      ensures |data| > 0 ==> sent == old(sent) + Requests(client.value, config, data)
      ensures err == None
    {
      var i := 0;
      while i < |data|
        invariant 0 <= i <= |data|
        invariant i == 0 ==> sent == old(sent)
        invariant i > 0 ==> sent == old(sent) + Requests(client.value, config, data[..i])
      {
        var rec := data[i];
        var event := BuildEvent(config, rec);
        var req := Send(client.value, event, rec.timeStamp);
        var _ := deliver(req);
        RequestsSnoc(client.value, config, data, i);
        sent := sent + [req];
        i := i + 1;
      }
      assert i > 0 ==> data[..i] == data;
      err := None;
    }
  }
}
