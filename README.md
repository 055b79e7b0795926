# fluenthose firehose handler, modelled in Dafny

fluenthose is an HTTP endpoint that accepts delivery requests shaped like an
Amazon Kinesis Data Firehose HTTP destination. It re-emits each record of a
request as one fluent-forward message toward a log aggregator. This project
models the request-handling pipeline of `pkg/firehose/firehose.go`:

- request validation: the method, then the access key, then the request id;
- event-type classification: the `X-Event-Type` entry of the
  `X-Amz-Firehose-Common-Attributes` header, defaulting to `"unknown"`;
- decoding of the request body;
- the forwarding loop, which sends one message per record;
- the rendering of errors and of the acknowledgment.

Files:

- `wrappers.dfy`: `Option` and `Result`.
- `http.dfy`: the parts of net/http the handler touches. This covers `Header.Get`, the
  status codes, and a `ResponseWriter` class. The class records the header
  it sets, each status line it writes and each JSON value it encodes.
- `fluent.dfy`: the fluent message and a `Client` class. The class keeps a ghost log of
  every message handed to `SendMessage`. The send outcome is left unconstrained.
- `time.dfy`: the wall clock. Its readings are unconstrained.
- `firehose.dfy`: the handler. It has pure decision functions (`Validate`, `EventTypeOf`,
  `ParseRequestBody`, `ErrorReply`, `Handle`, `ReplyOf`). It also has the imperative
  methods that mirror the Go code step by step: `ClassifyEventType`,
  `ForwardRecords`, `JsonHandleError` and `FirehoseHandler`. Each method is proved
  against the function that specifies it.
- `firehose_properties.dfy`: lemmas about `Handle` and about the rendered responses.

External behaviour enters as inputs:

- JSON decoding is the pair of decoder functions in `Codecs`. The header
  decoder returns the map `json.Unmarshal` left behind and whether it reported an error.
- The fluent client's send outcome is the unconstrained error result of
  `Fluent.Client.SendMessage`.
- Clock readings are the unconstrained results of `Time.Clock`.

Because the send outcome is unconstrained, proving `FirehoseHandler` against `Handle` shows that
send failures never reach the response. `Handle` has no input for send outcomes.

Three behaviours of the code that the model keeps:

- An error response never carries a request id. `errAuth` and `errBadReq` have none, even after the
  request-id header was read.
- The common-attributes map is used even when `json.Unmarshal` reported an error.
  A JSON type error can leave some entries decoded.
- The body's own `requestId` field is ignored. The acknowledgment echoes the header.

## Model

| member | source | states |
|---|---|---|
| `Firehose.Validate` | pkg/firehose/firehose.go:158-172 | non-POST gives bad request whatever the headers; unauthorized exactly when a POST's key header is not equal to a non-empty configured key; bad request for a POST with a good key and an empty or missing request id; success exactly when the method, key and a non-empty request-id header all pass, and then the result is that header |
| `Firehose.ClassifyEventType` | pkg/firehose/firehose.go:177-193 | scanning the decoded map in any order, stopping at the first `X-Event-Type` key, gives that key's value when present and `"unknown"` otherwise (or when no map was decoded) |
| `Firehose.ParseRequestBody` | pkg/firehose/firehose.go:227-244 | fails with bad request exactly when the captured body does not decode, and returns the decoded body otherwise; the nil-reader test never fires |
| `Firehose.BytesToString` | pkg/firehose/firehose.go:208 | the `data` string has one character per record byte, with the same value |
| `Firehose.JsonHandleError` | pkg/firehose/firehose.go:246-264 | writes one response: the JSON content type, one status line and one body, all as `ErrorReply` gives them for the error |
| `Firehose.ForwardRecords` | pkg/firehose/firehose.go:201-218 | one `SendMessage` per record, in input order, each with tag and `type` equal to the event type and `data` equal to the record's bytes; whatever each send returns, the loop goes on and earlier log entries are kept |
| `Firehose.FirehoseHandler` | pkg/firehose/firehose.go:154-225 | every path writes exactly one response, the one `Handle` decides, provided every send returns; a rejected request sends nothing; an accepted one sends exactly its records as `ForwardRecords` states; send outcomes have no effect on the response |
| `Firehose.SentForSnoc` | pkg/firehose/firehose.go:202-217 | one more message for one more record extends the record-by-record correspondence |
| `Fluent.Client.SendMessage` | pkg/firehose/firehose.go:213 | each call appends the message to the log of attempts; its error result is unconstrained |
| `FirehoseProperties.NonPostIsBadRequest` | pkg/firehose/firehose.go:158-161 | any non-POST request gets 400 "bad request" with no request id, whatever its headers |
| `FirehoseProperties.UnauthorizedExactly` | pkg/firehose/firehose.go:162-167 | the unauthorized rejection happens exactly for a POST whose key is missing, empty or different from the configured key |
| `FirehoseProperties.EmptyAccessKeyRefusesEveryPost` | pkg/firehose/firehose.go:162-166 | with an empty configured key, every POST gets 401 |
| `FirehoseProperties.MissingRequestIdIsBadRequest` | pkg/firehose/firehose.go:168-172 | a POST with a good key and an empty or missing request id gets bad request |
| `FirehoseProperties.AttributesNeverFailRequest` | pkg/firehose/firehose.go:177-193 | how the common-attributes header decodes never changes the response or which records are forwarded |
| `FirehoseProperties.UndecodedAttributesGiveDefault` | pkg/firehose/firehose.go:177-183 | when decoding leaves no map, the event type is `"unknown"` |
| `FirehoseProperties.AbsentAttributesHeader` | pkg/firehose/firehose.go:177-181 | a missing header reads as "", which leaves no map, so the event type is `"unknown"` and the request is still forwarded |
| `FirehoseProperties.AttributeNamesEventType` | pkg/firehose/firehose.go:183-190 | a decoded map that holds `X-Event-Type` sets the event type to its value, even when decoding also reported an error |
| `FirehoseProperties.UndecodableBodyIsBadRequest` | pkg/firehose/firehose.go:195-200 | a valid request whose body does not decode is rejected with bad request |
| `FirehoseProperties.EmptyBodyIsBadRequest` | pkg/firehose/firehose.go:229-242 | an empty body goes through the decode failure and gets 400 "bad request" |
| `FirehoseProperties.ForwardedExactly` | pkg/firehose/firehose.go:173-224 | a request is forwarded exactly when it validates and its body decodes; then the reply is 200 with the request-id header, and the forwarded records are the decoded ones |
| `FirehoseProperties.HelloRecordIsForwarded` | pkg/firehose/firehose.go:202-212 | a single record holding the bytes of "hello" is forwarded as one message whose `data` is "hello" |
| `FirehoseProperties.BytesRoundTrip` | pkg/firehose/firehose.go:208 | the record bytes can be recovered from the forwarded `data` string |
| `FirehoseProperties.DataIsInjective` | pkg/firehose/firehose.go:208 | records with different bytes are forwarded with different `data` strings |
| `FirehoseProperties.SentForConcat` | pkg/firehose/firehose.go:202-218 | forwarding two batches one after the other forwards their concatenation, message by message |
| `FirehoseProperties.HandleTwice` | pkg/firehose/firehose.go:154-225 | handling the same request twice writes two responses and sends every record twice: forwarding is not deduplicated |
| `FirehoseProperties.HandlerErrorsCarryNoRequestId` | pkg/firehose/firehose.go:53-54 | every error the handler writes is 400 "bad request" or 401 "unauthorized", with an empty request id |
| `FirehoseProperties.ErrorReplyMapping` | pkg/firehose/firehose.go:246-264 | an APIError keeps its own status, message and request id; any other error becomes 500 "internal server error" with no request id |
| `FirehoseProperties.EncodedBodies` | pkg/firehose/firehose.go:76-81 | with the omitempty tags, an error body has no `requestId` field and carries the error message; a success body carries the request id and no `errorMessage` |

## Left out

- `RunFirehoseServer` (pkg/firehose/firehose.go:83-152) is left out. It covers the process lifecycle:
  signal handling, the serving goroutine, shutdown with a 5-second drain, health checks, and router and
  metrics wiring. This is concurrency and process control, not request logic.
- JSON decoding and encoding, and the base64 decoding of `data`, are library behaviour. The decoders are
  inputs, and `JsonFields` models only the omitempty field selection.
- A transport error while reading the body is only logged, and decoding runs on the bytes captured.
  `Request.body` stands for those captured bytes; after a read error they are only the part read
  before it.
- Replacing `r.Body` with a reader over the captured bytes is not modelled as a state change. Nothing
  reads the body after decoding.
- The fluent-forward wire protocol, the connection, and the empty `MessageOptions` are not modelled.
  A send is an opaque call that may fail.
- Firehose.FirehoseHandler: does not model a send that never returns. Every `SendMessage` call
  returns in the model; in the code no timeout bounds it, and a blocked send leaves the request
  without a response.
- Firehose.FirehoseHandler: does not state the response and message timestamps. They are wall-clock
  readings, and their int64 width and the millisecond/second conversions are not modelled.
- Logging is not modelled. This includes the "records sent" count, which is always 0 because the loop
  variable shadows the outer `recordCount`.
- Go strings are byte strings. The model keeps the record `data` as one character per byte, but keeps
  header values (the tag and the `type` entry among them) as Unicode characters. So the same Go bytes
  can have two different forms in one message: `BytesToString([195, 169])` is not `"é"`.
- Header canonicalisation and multi-valued headers are not modelled. Headers are a map with one value
  per name.
- `WriteHeader`'s panic on a status outside 100-999 is not modelled. It is net/http behaviour, and
  every status the handler writes is valid.
- Concurrent requests sharing the one fluent client are not modelled. The model handles one request
  at a time.
