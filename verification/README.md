# kratos-layout: response envelopes and the tiered log sink

This project models the two decision layers of the kratos-layout service
scaffold in Dafny and proves properties about them.

- **Response envelope encoders** (`internal/server/encoder.go`), module `Encoder`.
  - `errorEncoder` turns a structured error `{code, message}` into an outer HTTP status, a Content-Type and an `HTTPError` body.
  - `respEncoder` wraps a success payload in the `HTTPOk` envelope `{code: 200, message: "success", data, ts}`.
  - Single-field unwrap: when the payload's serialised field map has exactly one entry, `data` is that entry's value.
  - The codec chosen by content negotiation is a value `Codec(name, marshal, unmarshal)`.
  - The response writer is a trace of `WriteHeader`, `SetHeader` and `Write` events.
  - The clock reading and the outcome of the writer's `Write` are parameters.
- **Tiered log sink** (`pkg/zaplog/log.go`), modules `Levels`, `Timestamp` and `ZapLog`.
  - `getLevel` parses the configured level name.
  - `getEncoder` and `getEncoderConfig` pick the framing and the level-encoding style.
  - `getLogWriter` fills in the options for the rotating writer.
  - `getEncoderCore` builds a tee of three cores: stdout, the info tier and the error tier.
  - `Zap` decides whether stack traces are attached.
  - `CustomTimeEncoder` renders the record time.
  - Routing is the function `Destinations(cfg, level)`, which gives the set of sinks a record reaches.

`results.dfy` holds the shared `Result`/`Option` types.

The model keeps these behaviours of the code:

- Stdout is fixed at Debug. The configured level filters no destination; it only decides stack traces.
- Warn records go to the info tier. That tier takes every level below Error.
- A failed first marshal or unmarshal in `respEncoder` does not abort it. It only affects whether unwrapping happens.
- When the field map does not have exactly one entry, `data` stays the original payload, not the map.
- Both tiers get the same link path, `Director/LinkName`.
- On the error path the status is written before the Content-Type header is set.

## Model

| member | source | states |
|---|---|---|
| Encoder.ErrorBody | internal/server/encoder.go:25-28 | the error body has exactly the fields `code` and `message`, holding the structured error's code and message verbatim |
| Encoder.OuterStatus | internal/server/encoder.go:36-40 | the outer status is 200 exactly for domain codes 100..599 and 500 for every other code, negatives and 0..99 included |
| Encoder.EncodeError | internal/server/encoder.go:21-43 | the first writer call is the only status; a failed body marshal yields just status 500; otherwise the status is the outer status, exactly one body is written (the marshalled error body), and the Content-Type `application/<codec>` is set before it |
| Encoder.ErrorMarshalFailureOnlySetsStatus | internal/server/encoder.go:30-34 | if the error body cannot be marshalled, the only effect is status 500: no header is set and no body is written |
| Encoder.ErrorTraceOrder | internal/server/encoder.go:36-42 | on a successful marshal the writer sees exactly: status, then Content-Type, then the body; the status comes before the header |
| Encoder.ErrorBodyPreservesCode | internal/server/encoder.go:25-42 | under a codec that decodes what it encodes, the single body written decodes to exactly the input's code and message, whichever outer status was chosen |
| Encoder.EncodeErrorDeterministic | internal/server/encoder.go:21-43 | the error trace depends only on the codec's name and its marshalling of the body, with no clock involved; equal inputs give identical output |
| Encoder.FieldMap | internal/server/encoder.go:54-56 | the field map is what the codec decodes from the payload's first marshalling, or from no bytes when that marshalling fails, the error being discarded; under a codec that decodes what it encodes, an object payload's field map is exactly its fields |
| Encoder.Unwrap | internal/server/encoder.go:58-62 | a one-entry map is replaced by its single value; any other map size leaves the payload unchanged |
| Encoder.Reply | internal/server/encoder.go:54-69 | the envelope always has code 200, message "success" and ts = now; its data is the sole value of a one-entry field map and otherwise the original payload |
| Encoder.EncodeResponse | internal/server/encoder.go:52-81 | no status is ever written; a failed envelope marshal returns that error and writes nothing; otherwise exactly one body (the marshalled envelope) is written after the Content-Type is set, and the writer's error is returned |
| Encoder.ResponseSucceedsIff | internal/server/encoder.go:71-80 | `respEncoder` returns nil exactly when the envelope marshals and the write succeeds |
| Encoder.FirstPassFailureIgnored | internal/server/encoder.go:55-56 | a failed first marshal does not abort: the payload goes into the envelope unchanged, and only the envelope marshal and the write decide the outcome, provided decoding no bytes leaves a map without exactly one entry |
| Encoder.ResponseRoundTrip | internal/server/encoder.go:64-76 | under a codec that decodes what it encodes, the body written decodes to `{code: 200, message: "success", data, ts: now}` |
| Encoder.SingleFieldPayloadUnwrapped | internal/server/encoder.go:54-62 | a payload serialising to the single field `k: x` is sent with data `x` itself, not a one-key object |
| Encoder.MultiFieldPayloadKept | internal/server/encoder.go:58-67 | a payload object with zero or several serialised fields is sent whole as data |
| Levels.ToLowerChars | pkg/zaplog/log.go:102 | the lower-cased string has the input's length and at every position the lower-cased input character: A-Z become a-z, every other character is kept |
| Levels.ToLowerIdempotent | pkg/zaplog/log.go:102 | lower-casing twice is lower-casing once |
| Levels.GetLevel | pkg/zaplog/log.go:101-122 | a name equal to a level's name, ignoring case, selects that level; a level other than Info is selected only by its own name |
| Levels.GetLevelCaseInsensitive | pkg/zaplog/log.go:101-102 | `getLevel(s) == getLevel(lower(s))` for every string |
| Levels.GetLevelName | pkg/zaplog/log.go:103-117 | every level's printed name parses back to that level |
| Levels.GetLevelIff | pkg/zaplog/log.go:103-120 | a level other than Info is chosen exactly when the lower-cased input is its name; every other string falls back to Info |
| Timestamp.ZeroPad | pkg/zaplog/log.go:126 | the padded field is all digits, reads back as the number, has exactly the width when the number fits, and is the plain decimal when it does not |
| Timestamp.CustomTimeEncoder | pkg/zaplog/log.go:125-127 | for four-digit years the rendering has the shape of the layout `2006/01/02 - 15:04:05`: a digit wherever the layout has one and the layout's separators elsewhere |
| Timestamp.TimestampRoundTrip | pkg/zaplog/log.go:125-127 | parsing the rendered time gives back the same year, month, day, hour, minute and second, so every field is zero-padded to its width |
| ZapLog.ParseLevelEncoding | pkg/zaplog/log.go:86-97 | each of the four exact encoder names selects its encoder; any other value selects the lower-case encoder |
| ZapLog.GetEncoderConfig | pkg/zaplog/log.go:70-99 | the record keys are message/level/time/logger/caller/stacktrace with a newline line ending, and the level style follows the exact encoder name, otherwise lower-case |
| ZapLog.GetEncoder | pkg/zaplog/log.go:49-54 | the framing is JSON exactly when the format is `"json"`, console otherwise, with the shared encoder configuration |
| ZapLog.PathJoin | pkg/zaplog/log.go:57-59 | the joined path begins with the directory and ends with the file name |
| ZapLog.PathJoinCases | pkg/zaplog/log.go:57-59 | an empty directory or file name leaves the other part alone; otherwise the two are joined with exactly one `/`, none being added after a directory that already ends in `/` |
| ZapLog.GetLogWriter | pkg/zaplog/log.go:56-68 | the file pattern is `Director/%Y-%m-%d_<tier>.log` and the link is `Director/LinkName`; rotation is every 24h and max age is 7 rotations |
| ZapLog.TiersShareLink | pkg/zaplog/log.go:32-33 | the info and error writers share one link path but have different file patterns |
| ZapLog.GetEncoderCore | pkg/zaplog/log.go:30-47 | the tee has three cores, all with the one formatter chosen by the configuration |
| ZapLog.Routes | pkg/zaplog/log.go:41-45 | a sink receives a record exactly when some core of the tee for that sink enables the record's level |
| ZapLog.Zap | pkg/zaplog/log.go:18-28 | the logger uses the three-core tee; stack traces are attached exactly when the configured level is Debug or Error, with that level as threshold |
| ZapLog.RoutingRule | pkg/zaplog/log.go:35-45 | the tee `Zap` builds sends a record to stdout, plus the info tier if its level is below Error or the error tier otherwise |
| ZapLog.Destinations | pkg/zaplog/log.go:41-45 | the set of sinks a record of a given level reaches is stdout plus the info tier below Error, or stdout plus the error tier at Error and above |
| ZapLog.ExactlyOneTier | pkg/zaplog/log.go:35-44 | every record reaches stdout and exactly one of the two distinct tier files, the info tier exactly below Error, so Warn goes to the info tier |
| ZapLog.LevelFiltersNothing | pkg/zaplog/log.go:18-45 | changing the configured level never changes where a record goes |
| ZapLog.StacktraceRule | pkg/zaplog/log.go:20-26 | at configured Debug every record carries a stack trace; at Error exactly records at Error and above; at any other level none |

## Left out

- `getLogWriter`'s panic when the rotating writer cannot be constructed is not modelled. The conditions under which the rotation library fails are not visible, so the model assumes construction succeeds.
- File rotation, pruning and link maintenance inside the rotation library are not modelled. Only the configuration values handed to it are kept.
- zap's record encoding and writing are not modelled. This covers the colour codes and capitalisation applied by each level encoder, the duration and caller encoders, and the tee's write path. Only the choices the sink makes are kept.
- Concurrency of log emission and the wall clock are left out. Time is a parameter: `now` for the envelope and a `DateTime` for the log timestamp.
- Content negotiation (`CodecForRequest`), the real JSON and protobuf codecs, and `errors.FromError` are not modelled. The codec is an abstract value, and the encoder receives the already-converted `{code, message}`.
- `respEncoder`'s `v.(proto.Message)` type assertion is not modelled. It would panic on a non-protobuf payload; the model takes every payload to be a valid message.
- net/http's rule that headers set after `WriteHeader` are ignored is not modelled. Only the order of the writer calls is recorded.
- `HTTPError.Error()`, the string form of the error body, is not modelled. Neither encoder uses it.
- Levels.ToLower: lower-cases only A–Z. Go's `strings.ToLower` also maps non-ASCII letters, some of which lower-case to ASCII letters of the level names.
- ZapLog.PathJoin: drops an empty part and adds a `/` only after a directory that lacks one, but does not apply `path.Clean`. It agrees with Go's `path.Join` when both parts are already clean: neither holds `.` or `..` elements or repeated `/`, the file name neither starts nor ends with `/`, and the directory ends in `/` only when it is `/` itself. Otherwise it can differ: `("logs/", "")` gives `logs/` and `("logs", "/x")` gives `logs//x`, where Go gives `logs` and `logs/x`.
- Encoder.StatusError: the domain code is an unbounded integer. In the source it is a 32-bit integer widened to `int`; the status rule holds for every integer, so the width does not matter.
- Encoder.HTTPOk: `ts` is an unbounded integer. In the source it is Go's `int64` Unix time.
- Timestamp.DateTime: years are non-negative. Go also renders negative years; the round trip is proved for years below 10000, where the layout has fixed width.
- The database, cache and registry clients, the generated dependency wiring and the password-hashing wrapper contain no logic of this core and are outside the model.
