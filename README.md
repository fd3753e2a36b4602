# fluent-bit CloudWatch Logs output plugin, modelled in Dafny

This project models the core of `fluent-bit-go-cloudwatch-logs`. That is a fluent-bit output
plugin written in Go. It forwards each record of a batch to Amazon CloudWatch Logs as a
JSON line, one `PutLogEvents` call per record.

CloudWatch Logs wants every call to a stream to carry the sequence token returned by the
call before it. The plugin handles this as follows:

- it keeps that token in a process-wide variable;
- it can persist the token in a per-stream state file;
- it reads the token back when the plugin starts.

The model covers the following:

- **Configuration** (`CloudWatchLogsConfig`). Credential-provider selection (`GetCredentials`) and option
  validation (`getCloudWatchLogsConfig`): credentials first, then group, stream and region.
  It also covers the `AutoCreateStream` flag as parsed by `strconv.ParseBool`.
- **Token persistence** (`StateToken`). The state-file name (`stateFileFor`), reading the token back
  (`readStateToken`, using `strings.Trim(…, "\r\n")`) and writing it (`storeStateToken`).
  The file system is a map from path to contents.
- **Records** (`Records`). The timestamp of a record: an `FLBTime`, a `uint64` of seconds
  passed through Go's `int64` wrap-around, or the wall clock. It also covers `createJSON`'s
  conversion of byte slices to strings before encoding, as a loop that fills a map.
- **Delivery** (`Delivery`). The request `Put` builds, including the omission of an empty
  sequence token and the millisecond timestamp. Also covered: `nextSequenceToken`, and
  `Run`, which is the outcome of a whole flush as a function. Its lemmas state the token
  protocol:
  - requests follow the lines in order;
  - each request carries the token returned by the call before it;
  - FLB_RETRY comes exactly after a failed call, and nothing is sent after it;
  - the final token and the state file agree.
- **Plugin** (`OutputPlugin`). A class whose fields are the Go globals `configCtx`,
  `cloudwatchLogs` and `sequenceTokenCtx`, plus the file system.
  - `Init` is `FLBPluginInit`. It reads the options (with the source's group/stream key swap),
    handles a configuration error by unregistering and exiting, creates the group and stream
    when asked to, and seeds the token from the state file.
  - `Flush` is `FLBPluginFlush`. It is a loop over the decoded entries, proved to compute `Run`.

CloudWatch Logs, the JSON encoder, the credential providers and the wall clock are oracles.
They are function-valued parameters: `Services.put`, `Services.marshal`, `retrieve` and
`Services.clock`.

The model follows the code in two places where the code may surprise a reader:

- `FLBPluginInit` reads the `LogGroupName` option into the variable it passes as the stream
  name, and `LogStreamName` into the group name (out_cloudwatch_logs.go:171-172). `ResolveOptions`
  keeps that swap, and its contract states it.
- `GetCredentials` tries exactly one provider: a shared file when `Credential` is set, else
  static keys when either key is set, else the environment. When that provider fails,
  configuration fails; no other provider is tried. A "fall back to the next source" reading
  does not match the code, and the model follows the code (`NoCredentialFallback`).

`readStateToken` is called at start-up even when no `StateFile` is configured. It then
reads the file `StateFileFor("", stream)`: `"_"` followed by the stream name with every
`"/"` turned into `"-"`. `Start` models this as written.

## Model

| member | source | states |
|---|---|---|
| GoText.ReplaceChar | out_cloudwatch_logs.go:228 | `strings.Replace(s, "/", "-", -1)` keeps the length and replaces exactly the matching characters, position by position |
| GoText.TrimStart | out_cloudwatch_logs.go:244 | the index where the leading "\r"/"\n" run ends: every character before it is a line break, the one at it is not |
| GoText.TrimEnd | out_cloudwatch_logs.go:244 | the index where the trailing "\r"/"\n" run starts: every character from it on is a line break, the one before it is not |
| GoText.Trim | out_cloudwatch_logs.go:244 | `strings.Trim(s, "\r\n")` neither starts nor ends with a line break, and leaves a string that has none at its edges unchanged |
| GoText.TrimCutsOnlyLineBreaks | out_cloudwatch_logs.go:244 | `Trim` keeps one contiguous run of the input, and every character it removes, before or after that run, is "\r" or "\n" |
| GoText.TrimIdempotent | out_cloudwatch_logs.go:244 | trimming twice is trimming once |
| GoText.ParseBool | cloudwatch_logs.go:82 | `strconv.ParseBool` gives true exactly for its six true spellings and false exactly for its six false spellings; anything else is an error |
| CloudWatchLogsConfig.CredentialSource | cloudwatch_logs.go:30-51 | a shared credentials file (profile "default") iff `credential` is set; static keys iff it is not and either key is set; the environment iff all three are empty |
| CloudWatchLogsConfig.GetCredentials | cloudwatch_logs.go:28-54 | succeeds exactly when the one selected provider retrieves credentials, and then returns that provider; otherwise fails with "Failed to create credentials" |
| CloudWatchLogsConfig.NoCredentialFallback | cloudwatch_logs.go:28-54 | the outcome depends only on the selected provider: no other source is consulted after it fails |
| CloudWatchLogsConfig.AutoCreateStream | cloudwatch_logs.go:79-87 | the flag is false exactly for the six false spellings of `ParseBool`; an empty or unparsable option gives true |
| CloudWatchLogsConfig.GetCloudWatchLogsConfig | cloudwatch_logs.go:56-97 | a credential failure is reported first, then an empty group, stream or region in that order; a success carries the chosen provider, the names, the region, the parsed flag and the state path unchanged |
| CloudWatchLogsConfig.CredentialsCheckedFirst | cloudwatch_logs.go:58-61 | whatever the other options, failing credentials give the credentials error |
| CloudWatchLogsConfig.FirstFailingCheckMessage | cloudwatch_logs.go:58-76 | the error text of refused options is that of the first failing check, in the order credentials, group, stream, region |
| CloudWatchLogsConfig.ResolvedConfigIsComplete | cloudwatch_logs.go:56-97 | configuration succeeds iff credentials are retrieved and group, stream and region are all non-empty |
| StateToken.StateFileForShape | out_cloudwatch_logs.go:227-230 | `StateFileFor`, the state file of a stream, is the state path, "_", then the stream name with every "/" turned into "-" (the test at cloudwatch_logs_test.go:40-48 is one instance) |
| StateToken.StateFileNameHasNoSlash | out_cloudwatch_logs.go:227-230 | after the state path no "/" remains in the file name |
| StateToken.StateFileForCollision | out_cloudwatch_logs.go:227-230 | two streams share a state file iff they agree once "/" is read as "-" |
| StateToken.ReadStateToken | out_cloudwatch_logs.go:232-245 | a missing state file gives the empty token; the token never starts or ends with a line break; contents without edge line breaks are returned as they are |
| StateToken.StoreThenRead | out_cloudwatch_logs.go:232-254 | a token stored and read back under the same path and stream is returned unchanged when it has no edge line breaks (cloudwatch_logs_test.go:50-67) |
| StateToken.StoreThenReadTrims | out_cloudwatch_logs.go:232-254 | any stored token reads back trimmed of "\r\n" |
| StateToken.StoreChangesOneFile | out_cloudwatch_logs.go:247-254 | `AfterStore`, the file system after `storeStateToken`, has the stream's state file holding the token: storing writes the stream's state file and no other file |
| StateToken.StoreOverwrites | out_cloudwatch_logs.go:247-254 | a second store to the same file replaces the first |
| Records.Int64 | out_cloudwatch_logs.go:276 | `int64(t)` of a `uint64` is t below 2^63 and t - 2^64 (negative) above |
| Records.TimestampOf | out_cloudwatch_logs.go:271-280 | an `FLBTime` is used as is; a `uint64` of seconds gives `int64(secs)` (with Go's wrap-around) times 1000 milliseconds, which is the seconds themselves below 2^63; anything else gives the wall clock |
| Records.BytesToString | out_cloudwatch_logs.go:322 | `string(b)` keeps the length and every byte |
| Records.ConvertValue | out_cloudwatch_logs.go:319-325 | a byte slice becomes the string of the same bytes; every other value is kept; no byte slice remains |
| Records.ConvertRecord | out_cloudwatch_logs.go:316-326 | same keys as the record; a byte slice becomes the string of the same bytes; every value that is not a byte slice is unchanged; no byte slice is left |
| Records.ConvertRecordIdempotent | out_cloudwatch_logs.go:316-326 | converting an already converted map changes nothing |
| Records.CreateJSON | out_cloudwatch_logs.go:315-334 | fails exactly when the encoder rejects the converted map, returning "{}"; otherwise returns the encoding of the converted map |
| Delivery.PutLogEventsInput | out_cloudwatch_logs.go:70-85 | one event with the line and the millisecond time, for the configured group and stream; the token field is unset exactly when the token is empty |
| Delivery.RequestsFollowLines | out_cloudwatch_logs.go:264-297 | in `Deliver`, the sending of a batch's lines, request k carries line k only, for the configured group and stream; FLB_OK means every line was sent, FLB_RETRY that at least one call was made |
| Delivery.TokensAreThreaded | out_cloudwatch_logs.go:288-293 | the first request carries the token held at the start; every later request carries the token returned by the previous call, which succeeded; no request has its token field set to the empty token (an empty token leaves the field unset) |
| Delivery.NoRequestHasEmptyToken | out_cloudwatch_logs.go:83-85 | across a whole batch, every request leaves its token field unset instead of setting it to the empty token: the first one when the batch starts from the empty token, and any request that follows a nil response |
| Delivery.RetryExactlyAfterFailedCall | out_cloudwatch_logs.go:288-304 | a flush never returns FLB_ERROR, and returns FLB_RETRY exactly when its last call failed |
| Delivery.TokenAfterFlush | out_cloudwatch_logs.go:288-293 | the token held afterwards is the starting token when no call succeeded, else the one returned by the last successful call |
| Delivery.PersistOverwrites | out_cloudwatch_logs.go:294-296 | `Persist`, the store done after a successful call when a state path is configured: persisting twice keeps only the second token |
| Delivery.StateAfterFlush | out_cloudwatch_logs.go:293-296 | no file changes when no call succeeded; otherwise the state file (when configured) holds the final token and nothing else changed |
| Delivery.AllSentWhenNoCallFails | out_cloudwatch_logs.go:264-304 | when every call succeeds, every line is sent and the flush returns FLB_OK (out_cloudwatch_logs_test.go:180-199) |
| Delivery.OneLinePerRecord | out_cloudwatch_logs.go:264-286 | a batch of encodable records with status 0 yields one line per record, in order, with the record's time and encoding |
| Delivery.AtMostOneLinePerRecord | out_cloudwatch_logs.go:264-286 | `Outgoing`, the lines of a batch, never has more lines than the batch has records |
| Delivery.StopIndex | out_cloudwatch_logs.go:264-268 | where the record loop stops: every entry before it has status 0, and the one at it (if any) does not |
| Delivery.OutgoingStopsAtStatus | out_cloudwatch_logs.go:264-268 | entries from a non-zero status on contribute no line: the batch cut there yields the same lines |
| Delivery.SentIndices | out_cloudwatch_logs.go:264-286 | the positions of the records sent all lie before the stop and encode |
| Delivery.SentIndicesIncrease | out_cloudwatch_logs.go:264-286 | records are sent in batch order |
| Delivery.SentIndicesComplete | out_cloudwatch_logs.go:282-286 | every record that encodes before the stop is sent: a record whose `createJSON` fails is skipped and the records after it are still sent |
| Delivery.OutgoingIsFilter | out_cloudwatch_logs.go:264-286 | line n of a batch is the record-time line of the n-th sent record's encoding, and there are no other lines |
| Delivery.NextSequenceToken | out_cloudwatch_logs.go:307-313 | a response's next sequence token is taken; a nil response gives the empty token |
| Delivery.StateFileMirrorsToken | out_cloudwatch_logs.go:219-222 | after a flush in which a call succeeded, reading the state file gives the token held (trimmed), which is what the next start-up resumes from |
| OutputPlugin.ConfigKey | out_cloudwatch_logs.go:168-175 | an option that is not set reads as the empty string |
| OutputPlugin.ResolveOptions | out_cloudwatch_logs.go:166-177 | the group is taken from the "LogStreamName" option and the stream from "LogGroupName", and the credential provider is the one the three credential options select; resolution succeeds iff credentials are retrieved and both names and the region are set |
| OutputPlugin.ProvisioningCalls | out_cloudwatch_logs.go:205-217 | creation calls are made iff auto-create is on, at most two, the group first and the stream (in that group) last |
| OutputPlugin.PluginConfOf | out_cloudwatch_logs.go:198-203 | `configCtx` copies the group, stream, auto-create flag and state path of the resolved configuration |
| OutputPlugin.SeededToken | out_cloudwatch_logs.go:219-222 | a non-empty token read from the state file replaces the one held; an empty read leaves the held token as it was |
| OutputPlugin.CloudWatchLogsPlugin.constructor | out_cloudwatch_logs.go:21-35 | before start-up there is no configuration, no client and an empty token |
| OutputPlugin.CloudWatchLogsPlugin.Init | out_cloudwatch_logs.go:166-225 | on a configuration error: unregister, exit(1), FLB_ERROR and no state change; otherwise FLB_OK with configuration, client, group/stream creation calls and seeded token set, and no file changed |
| OutputPlugin.CloudWatchLogsPlugin.Start | out_cloudwatch_logs.go:192-222 | keeps the client and configuration, creates the group and then the stream only when auto-create is on, and seeds the token from the state file |
| OutputPlugin.CloudWatchLogsPlugin.StoreStateToken | out_cloudwatch_logs.go:247-254 | overwrites the stream's state file with the token |
| OutputPlugin.CloudWatchLogsPlugin.Flush | out_cloudwatch_logs.go:257-305 | the return code, requests sent, token held and file system afterwards are those of `Run`, whose lemmas above give the token protocol |

## Left out

- Calls to AWS (`PutLogEvents`, `CreateLogGroup`, `CreateLogStream`, credential retrieval) are
  oracles or recorded calls. `session.New` and the client are kept only as a `Client` value
  of credentials and region.
- The outcome of `CreateLogGroup` and `CreateLogStream` is only printed by the plugin. The
  model records the calls and does not model their results.
- `plugin.Exit(1)` ends the process. The model records it as the call `Exit(1)` and
  returns FLB_ERROR, as the Go code does after the call.
- The fluent-bit C interface is left out: `FLBPluginRegister`, `FLBPluginExit`, the decoder
  and `GetRecord`'s msgpack decoding. A flush takes the decoded entries as a sequence, and
  the loop stops at the first non-zero status.
- JSON encoding (jsoniter) is the `marshal` oracle. Values are strings, byte slices,
  integers, booleans, nil and arrays; floats and nested maps are not modelled.
- `Services.marshal` is a function of the converted map, so it fixes one key order per map.
  jsoniter's default configuration does not sort map keys: in Go, the line of a record
  with several keys follows Go's random map iteration order, and two records with the same
  content can give different lines. The model does not capture that nondeterminism.
- The wall clock (`time.Now`) is the `clock` oracle, indexed by record position.
- Records.TimestampOf: a time is kept as milliseconds since the epoch. Sub-millisecond
  precision and the int64 overflow of `time.Unix(…).UnixNano` for far-off seconds are not
  modelled.
- Failures of `ioutil.WriteFile` are only printed by the plugin and are not modelled. A
  read failure other than a missing file is not modelled either: it gives the same empty
  token as a missing file.
- `nextSequenceToken` dereferences `NextSequenceToken` of a non-nil response. A non-nil
  response without a token, which would panic in Go, is not representable: `PutDone`
  carries the token itself.
- Logging (`fmt.Printf`) is left out.
- OutputPlugin.CloudWatchLogsPlugin.Flush: a flush is modelled only after a successful
  `Init` (`requires configCtx.Some?`). In Go, a batch with nothing to send returns FLB_OK
  even when configuration never succeeded, since `configCtx` is read only inside `Put`
  and after a successful call. That case does not arise once a failed `Init` has called
  `Exit(1)`.
- Go strings are byte strings; the model's `string` is `seq<char>`, one char per byte
  (`BytesToString` maps each byte to the char with the same code). The model is exact
  under that reading only: a UTF-8 byte slice is not equal to the Unicode string it
  encodes (`ConvertValue(Bytes([0xC3, 0xA9]))` is not `Str("é")`).
- A record is `map<string, Value>`: records with non-string keys, on which `createJSON`'s
  `k.(string)` assertion panics, are not representable.
- The injectable `cloudwatchLogsCreds` credential strategy used by tests is represented by
  the `retrieve` oracle applied to the default strategy.
- Concurrency is left out. The plugin state is a single object, and calls are sequential,
  as fluent-bit makes them.
