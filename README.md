# Splunk pump of tyk-pump, modelled in Dafny

Tyk Pump moves analytics records out of Tyk's store into external sinks. The
Splunk pump (`pumps/splunk.go`) turns each record into a Splunk HTTP Event
Collector (HEC) event and posts it to the collector. This project models its
logic:

- **Client construction** (`NewSplunkClient`): the empty-settings check, the
  URL check, the certificate check when TLS verification is on, and the rewrite
  of the collector URL path to `/services/collector/event/1.0`
  (`SplunkClient.NewSplunkClient`, returning an `Outcome`).
- **The request `Send` builds**: a POST to the client's collector URL whose
  body is `{time: <Unix seconds of ts>, event}` and whose `authorization`
  header carries `Splunk <token>`: the exact prefix `Splunk ` followed by
  the token (`SplunkClient.Send`).
- **Event projection and API-key redaction** (the body of the `WriteData`
  loop). It is specified by the function `SplunkPump.Event`. The method
  `SplunkPump.BuildEvent` builds the map entry by entry as the source does
  and is proved equal to that function.
- **The batch loop** (`SplunkPump.Pump.WriteData`): one request per record,
  in input order, logged in the ghost sequence `sent`. The result is always
  `nil`.

Files: `wrappers.dfy` (`Option`), `analytics.dfy` (the record, event values,
time, field registry), `splunk_client.dfy`, `splunk_pump.dfy`.

## How the code was read

- `mapping` is used on lines 158 and 171 but not defined in `pumps/splunk.go`.
  It is modelled as a registry (`Analytics.Lookup`). The registry knows the
  fourteen names of the default event, and for each one gives that field's
  value in the current record.
- Line 158 skips a requested name when the registry *knows* it. This is the
  inverse of what the surrounding comment and the redaction code need. The
  model follows the evident intent: unknown names are skipped silently, with
  no entry and no error. The test as written is kept in
  `SplunkPump.SelectedAsWritten` (see Findings).
- Lines 166-167 compare with and subtract `ObfuscateAPIKeys`, which is a
  `bool`. That is not valid Go. The model uses `ObfuscateAPIKeysLength`
  (line 106), the only integer setting for this purpose.
- Line 171 stores `mapping[field]`. The model stores the registry's *value*
  for the current record, not an accessor.
- A negative `obfuscate_api_keys_length` would make the slice on line 167
  panic. So `SplunkPump.RedactionDefined` requires it to be non-negative, but
  only when redaction is on and `api_key` is requested.
- `WriteData` on a pump without a built client panics in Go: after a
  failed `Init` `p.client` is nil and `Send` dereferences it (line 81), and
  on a pump never initialised `p.config` is nil and line 154 dereferences
  it. The model requires a built client whenever the batch is non-empty.
- `NewSplunkClient` never sets the client's `TLSSkipVerify` field, so it is
  always `false`. The model keeps that.

## Model

| member | source | states |
|---|---|---|
| `Analytics.UnixSeconds` | pumps/splunk.go:75 | `ts.Unix()` is the whole number of seconds `s` with `s*1e9 <= ts < (s+1)*1e9` nanoseconds, i.e. rounded down also before the epoch |
| `Analytics.UnixSecondsOfFromUnix` | pumps/splunk.go:75 | `Unix()` returns the `sec` of `time.Unix(sec, nsec)` for every normalised `nsec` |
| `Analytics.Lookup` | pumps/splunk.go:157-171 | the registry knows exactly the fourteen default field names; `api_key` and `time_stamp` select the record's key and timestamp |
| `SplunkClient.NewSplunkClient` | pumps/splunk.go:41-67 | fails with `errInvalidSettings` iff the token or URL is empty; otherwise fails with the URL error iff the URL does not parse; otherwise fails with the TLS error iff verification is on and the key pair does not load; on success the token is kept, the URL is the parsed one with its path replaced by the collector path, and the TLS settings are insecure-skip-verify or the loaded certificate with the server name |
| `SplunkClient.ClientIgnoresInputPath` | pumps/splunk.go:45-63 | two collector URLs that differ only in their path give the same client |
| `SplunkClient.Outcome.ToOption` | pumps/splunk.go:41-67 | the client pointer handed back is present exactly when construction succeeded, and nil (lines 43, 47, 54) otherwise |
| `SplunkClient.Authorization` | pumps/splunk.go:86 | the header value is `Splunk ` followed by the token |
| `SplunkClient.TokenOf` | pumps/splunk.go:22 | a value that starts with the exact prefix `Splunk ` (case and single space as on line 22) yields the rest as its token, and only such a value yields one |
| `SplunkClient.TokenRoundTrip` | pumps/splunk.go:86 | the token read back from the header is the client's token |
| `SplunkClient.Send` | pumps/splunk.go:70-88 | the request is a POST to the client's collector URL; its body has the event unchanged and the Unix seconds of `ts`; its one header is `authorization` with a credential that carries the client's token |
| `SplunkPump.Mask` | pumps/splunk.go:167 | a redacted key is `****` followed by the last `n` characters of the key: `n + 4` characters in all |
| `SplunkPump.Selected` | pumps/splunk.go:157-172 | one requested name emits something iff the registry knows it and it is not the API key withheld under redaction; a redacted API key is the masked key, every other value is the registry's; it is also characterised through `Event` |
| `SplunkPump.Projected` | pumps/splunk.go:156-173 | the loop over requested names emits a name iff it is requested, known, and not the withheld API key |
| `SplunkPump.DefaultEvent` | pumps/splunk.go:174-191 | the default event has exactly the fourteen registry names, each with the record's value |
| `SplunkPump.Event` | pumps/splunk.go:150-192 | with no fields configured, the event's keys are the fourteen default names; with fields configured, a name is a key iff it is requested, known to the registry, and not the API key withheld under redaction; every value is the registry's value, except that a redacted API key is the masked key |
| `SplunkPump.ProjectedSnoc` | pumps/splunk.go:156-172 | handling one more requested name adds at most that name's entry and leaves the others alone |
| `SplunkPump.BuildEvent` | pumps/splunk.go:150-192 | the event built entry by entry equals `Event` |
| `SplunkPump.DefaultEventIsVerbatim` | pumps/splunk.go:174-191 | with no fields configured all fourteen fields are copied verbatim, and `api_key` is in clear even when redaction is on |
| `SplunkPump.ConfiguredEventWithinFields` | pumps/splunk.go:154-173 | with fields configured, no name outside them is emitted |
| `SplunkPump.RedactedKeyShape` | pumps/splunk.go:163-168 | with redaction on, `api_key` requested and key length L > N >= 0, the value is a string of N + 4 characters: `****`, then the key's last N characters |
| `SplunkPump.ShortKeyOmitted` | pumps/splunk.go:166 | with fields configured, redaction on and key length L <= N, the event has no `api_key` entry (with no field configured the default event carries the key in clear) |
| `SplunkPump.UnknownNameIgnored` | pumps/splunk.go:157-160 | once some field is configured, requesting a name the registry does not know adds no entry and changes nothing else (with no field configured, a lone unknown name replaces the default event by an empty one) |
| `SplunkPump.SelectedAsWritten` | pumps/splunk.go:158-171 | with the test as written, a name is emitted iff the registry does not know it, and its value is `nil` |
| `SplunkPump.ProjectedAsWritten` | pumps/splunk.go:156-173 | the loop with the test of line 158 as written emits only names the registry does not know, each mapped to `nil`; the converse is `AsWrittenEmitsOnlyUnknownNames` |
| `SplunkPump.AsWrittenEmitsOnlyUnknownNames` | pumps/splunk.go:156-173 | as written, a configured event holds exactly the unknown requested names, all `nil` |
| `SplunkPump.InvertedTestCounterexample` | pumps/splunk.go:158 | requesting `method`: as written the event is empty; as intended it holds the record's method |
| `SplunkPump.Requests` | pumps/splunk.go:147-195 | a batch gives exactly one request per record |
| `SplunkPump.RequestsAt` | pumps/splunk.go:147-195 | the i-th request sends the i-th record's event with that record's timestamp |
| `SplunkPump.RequestsAppend` | pumps/splunk.go:147-195 | sending two batches one after the other sends the same requests, in the same order, as sending them joined |
| `SplunkPump.RequestsSnoc` | pumps/splunk.go:147-195 | one more loop iteration appends exactly the next record's request |
| `SplunkPump.Pump.constructor` | pumps/splunk.go:111-113 | a new pump has no client and has sent nothing |
| `SplunkPump.Pump.Init` | pumps/splunk.go:121-140 | keeps the configuration; the client is the one `NewSplunkClient` builds from it, or nil, and the error is returned exactly when construction failed |
| `SplunkPump.Pump.WriteData` | pumps/splunk.go:143-197 | appends to the sent log exactly one request per record, in input order, and returns nil whatever the deliveries return |

## Findings

| source | as written | input that shows it | evidently intended | confidence | as-written member | corrected member |
|---|---|---|---|---|---|---|
| pumps/splunk.go:158 | the test skips a requested name when the registry knows it; only unknown names get through, and line 171 then stores `nil` for them | `fields = ["method"]`: the event is empty | skip only unknown names; `fields = ["method"]` gives `{"method": <record's method>}` | high that it is inverted (the redaction branch after it can never run as written); not executed | `SplunkPump.InvertedTestCounterexample` | `SplunkPump.Event` |

## Left out

- TLS transport: `tls.LoadX509KeyPair` and `url.Parse` enter as function parameters (`loadKeyPair`, `parse`). The model does not cover how they parse or what files they read.
- The process-wide `http.DefaultClient.Transport` assignment (line 58): the TLS settings are kept in the client value. That every client shares and overwrites one global transport is not modelled.
- `u.String()`: the client keeps the parsed URL record, not its text.
- `SplunkClient.Send`: does not model JSON marshalling, `http.NewRequest`, the context, or `httpClient.Do` (I/O and library calls). Their failures are therefore not modelled either. The model stops at the request value.
- `SplunkClient.Send`: the token is only checked to be non-empty (line 42), never against the `token68` syntax of section 11.1 of RFC 9110, so a token with spaces gives an ill-formed credential; the model does not check it either.
- `SplunkClient.TokenOf`: reads back only the exact prefix `Splunk ` with one space; it is not a parser of RFC 9110 credentials, where the scheme name is case-insensitive.
- `SplunkPump.Pump.WriteData`: the panic of a non-empty batch on a pump without a built client is not modelled; the method requires a built client instead.
- `SplunkClient.Send`: Go's `Header.Add` stores the name in canonical form (`Authorization`). The model keeps the name as passed (`authorization`). Header names are case-insensitive (section 5.1 of RFC 9110).
- `SplunkPump.Pump.WriteData`: the HTTP round trip is the parameter `deliver`. Its result is discarded, as in the source. The sent requests are recorded in a ghost log rather than observed on the network.
- The `int64` width of the `time` field and of Unix seconds is not modelled; integers are unbounded.
- Strings are sequences of characters. Go measures `len(apiKey)` and slices in bytes, so multi-byte UTF-8 keys are not modelled byte for byte.
- `mapstructure.Decode` and all logging (lines 123-129, 136-138, 144-146): the configuration arrives as a typed value, and a decoding failure in `Init` is not modelled.
- The `v.(analytics.AnalyticsRecord)` type assertion (line 148): the batch is a sequence of records, so a non-record element, which would panic, cannot occur.
- `GetName` (line 116-118) returns a constant and is not modelled.
