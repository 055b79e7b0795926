/**
 * The firehose ingestion handler: it validates a delivery request, classifies
 * it by its common attributes, decodes the record list and forwards one fluent
 * message per record, then answers with a JSON acknowledgment or error.
 *
 * JSON decoding is library behaviour and enters the model as the two decoder
 * functions of `Codecs`; the wall clock and the fluent client are objects whose
 * results the handler cannot predict.
 */
module Firehose {
  import opened Wrappers
  import opened Http
  import Fluent
  import Time

  const AccessKeyHeaderName := "X-Amz-Firehose-Access-Key"
  const RequestIdHeaderName := "X-Amz-Firehose-Request-Id"
  const EventTypeHeaderName := "X-Event-Type"
  const CommonAttributesHeaderName := "X-Amz-Firehose-Common-Attributes"

  const ContentTypeHeaderName := "Content-Type"
  const JsonContentType := "application/json"

  /** The event type of a batch whose common attributes do not name one. */
  const DefaultEventType := "unknown"

  newtype byte = x: int | 0 <= x < 256

  /** firehoseAPIError: an HTTP status, a message and a request id. */
  datatype ApiError = ApiError(code: int, msg: string, requestId: string)

  /** A Go `error`: either one that implements APIError or any other. */
  datatype Error = ApiErr(api: ApiError) | OtherErr(text: string)

  /** errAuth and errBadReq; neither carries a request id. */
  const ErrAuth := ApiError(StatusUnauthorized, "unauthorized", "")
  const ErrBadReq := ApiError(StatusBadRequest, "bad request", "")

  /** firehoseRecord: one payload, already base64-decoded by the JSON layer. */
  datatype Record = Record(data: seq<byte>)

  /** firehoseRequestBody; absent fields decode to their zero values. */
  datatype RequestBody = RequestBody(requestId: string, timestamp: int, records: seq<Record>)

  /** firehoseResponseBody. */
  datatype ResponseBody = ResponseBody(requestId: string, timestamp: int, errorMessage: string)

  /**
   * What json.Unmarshal leaves in firehoseCommonAttributes, and whether it
   * reported an error. A syntax error (an empty header among them) leaves the
   * map nil; a type error can report failure and still leave entries behind.
   */
  datatype AttributesDecode = AttributesDecode(commonAttributes: Option<map<string, string>>, failed: bool)

  /** An inbound request: its method, its headers and the bytes of its body. */
  datatype Request = Request(verb: string, header: Header, body: seq<byte>)

  /** The JSON decoders the handler relies on. */
  datatype Codecs = Codecs(
    decodeAttributes: string -> AttributesDecode,
    decodeBody: seq<byte> -> Option<RequestBody>)

  /**
   * The encoding/json behaviour the properties rely on: an empty header value
   * leaves no attributes map, and an empty body does not decode.
   */
  predicate JsonLike(codecs: Codecs)
  {
    codecs.decodeAttributes("").commonAttributes.None? && codecs.decodeBody([]).None?
  }

  /** A response apart from its timestamp, which is a wall-clock reading. */
  datatype Reply = Reply(status: int, requestId: string, errorMessage: string)

  /** What the handler decides for a request: reject it, or forward its records. */
  datatype Decision =
    | Reject(error: ApiError)
    | Forward(requestId: string, eventType: string, records: seq<Record>)

  // ---------------------------------------------------------------------------
  // Byte strings

  /**
   * Go's string(record.Data): the same bytes, one character per byte. Header
   * values, by contrast, are held as Unicode characters, so a multi-byte UTF-8
   * sequence in `data` does not equal the same text taken from a header.
   */
  function BytesToString(data: seq<byte>): (s: string)
    ensures |s| == |data|
    ensures forall i :: 0 <= i < |data| ==> s[i] as int == data[i] as int
  {
    seq(|data|, i requires 0 <= i < |data| => data[i] as int as char)
  }

  /** The bytes of a string whose characters are all bytes. */
  function StringToBytes(s: string): (data: seq<byte>)
    requires forall i :: 0 <= i < |s| ==> s[i] as int < 256
    ensures |data| == |s|
    ensures forall i :: 0 <= i < |s| ==> data[i] as int == s[i] as int
  {
    seq(|s|, i requires 0 <= i < |s| => s[i] as int as byte)
  }

  // ---------------------------------------------------------------------------
  // Request validation

  /**
   * The three checks at the head of firehoseHandler, in their order: the
   * method, then the access key, then the request id. On success the result
   * is the request id.
   */
  function Validate(verb: string, header: Header, accessKey: string): (r: Result<string, ApiError>)
    ensures verb != MethodPost ==> r == Failure(ErrBadReq)
    ensures r == Failure(ErrAuth) <==>
              verb == MethodPost && !(HeaderGet(header, AccessKeyHeaderName) == accessKey && accessKey != "")
    ensures r.Success? <==>
              && verb == MethodPost
              && HeaderGet(header, AccessKeyHeaderName) == accessKey && accessKey != ""
              && HeaderGet(header, RequestIdHeaderName) != ""
    ensures (&& verb == MethodPost
             && HeaderGet(header, AccessKeyHeaderName) == accessKey && accessKey != ""
             && HeaderGet(header, RequestIdHeaderName) == "") ==> r == Failure(ErrBadReq)
    ensures r.Success? ==> r.value == HeaderGet(header, RequestIdHeaderName)
  {
    if verb != MethodPost then Failure(ErrBadReq)
    else
      var key := HeaderGet(header, AccessKeyHeaderName);
      if key == "" || key != accessKey then Failure(ErrAuth)
      else
        var requestId := HeaderGet(header, RequestIdHeaderName);
        if requestId == "" then Failure(ErrBadReq) else Success(requestId)
  }

  // ---------------------------------------------------------------------------
  // Event-type classification

  /** The value stored under X-Event-Type in the common attributes, if any. */
  function EventTypeOf(commonAttributes: Option<map<string, string>>): (eventType: string)
  {
    if commonAttributes.Some? && EventTypeHeaderName in commonAttributes.value
    then commonAttributes.value[EventTypeHeaderName]
    else DefaultEventType
  }

  /**
   * The scan over the decoded common attributes. Go visits a map's entries in
   * an unspecified order; each iteration here picks any entry not yet visited,
   * and the first entry whose key is X-Event-Type ends the scan. Whatever the
   * order, the result is the same.
   */
  method ClassifyEventType(commonAttributes: Option<map<string, string>>) returns (eventType: string)
    ensures eventType == EventTypeOf(commonAttributes)
  {
    eventType := DefaultEventType;
    if commonAttributes.Some? {
      var attributes := commonAttributes.value;
      var unvisited := attributes.Keys;
      while unvisited != {}
        invariant unvisited <= attributes.Keys
        invariant eventType == DefaultEventType
        invariant EventTypeHeaderName in attributes ==> EventTypeHeaderName in unvisited
        decreases unvisited
      {
        var k :| k in unvisited;
        if k == EventTypeHeaderName {
          eventType := attributes[k];
          break;
        }
        unvisited := unvisited - {k};
      }
    }
  }

  // ---------------------------------------------------------------------------
  // Body decoding

  /**
   * parseRequestBody. The body is captured in full for the log and a fresh
   * reader over the captured bytes replaces it; decoding then runs on that
   * reader. The nil-reader test comes right after the reader was installed,
   * so it never fails: an empty body reaches the decoder and fails there.
   */
  function ParseRequestBody(body: seq<byte>, decodeBody: seq<byte> -> Option<RequestBody>): (r: Result<RequestBody, ApiError>)
    ensures r.Failure? <==> decodeBody(body).None?
    ensures r.Failure? ==> r.error == ErrBadReq
    ensures r.Success? ==> r.value == decodeBody(body).value
  {
    var captured := body;
    var reader: Option<seq<byte>> := Some(captured);
    if reader.None? then Failure(ErrBadReq)
    else
      match decodeBody(reader.value)
      case None => Failure(ErrBadReq)
      case Some(decoded) => Success(decoded)
  }

  // ---------------------------------------------------------------------------
  // Error rendering

  /** The jsonError closure: the body JSONHandleError writes for an APIError. */
  function JsonError(e: ApiError, timestamp: int): (body: ResponseBody)
  {
    ResponseBody(e.requestId, timestamp, e.msg)
  }

  /** The fallback error JSONHandleError renders for an error that is not an APIError. */
  const InternalError := ApiError(0, "internal server error", "")

  /**
   * The status and body JSONHandleError produces: an APIError's own status,
   * message and request id; for any other error, 500 with the fallback's
   * message and request id.
   */
  function ErrorReply(err: Error): (rep: Reply)
  {
    match err
    case ApiErr(e) => Reply(e.code, e.requestId, e.msg)
    case OtherErr(_) => Reply(StatusInternalServerError, InternalError.requestId, InternalError.msg)
  }

  /** A JSON scalar as json.Encoder writes it. */
  datatype JsonValue = JString(s: string) | JNumber(n: int)

  /**
   * The JSON object encoded for a response body. Every field of
   * firehoseResponseBody is tagged omitempty, so a zero value is left out.
   */
  function JsonFields(b: ResponseBody): (fields: map<string, JsonValue>)
  {
    (if b.requestId != "" then map["requestId" := JString(b.requestId)] else map[])
    + (if b.timestamp != 0 then map["timestamp" := JNumber(b.timestamp)] else map[])
    + (if b.errorMessage != "" then map["errorMessage" := JString(b.errorMessage)] else map[])
  }

  /** The body `b` carries the request id and error message of `rep`. */
  predicate Renders(b: ResponseBody, rep: Reply)
  {
    b.requestId == rep.requestId && b.errorMessage == rep.errorMessage
  }

  /**
   * `w` went from (header0, statuses0, bodies0) to a state that holds exactly
   * one more response: the JSON content type, one status line and one body.
   */
  ghost predicate WroteReply(w: ResponseWriter<ResponseBody>, header0: Header, statuses0: seq<int>,
                             bodies0: seq<ResponseBody>, rep: Reply)
    reads w
  {
    && w.header == header0[ContentTypeHeaderName := JsonContentType]
    && w.statusWrites == statuses0 + [rep.status]
    && |w.encoded| == |bodies0| + 1
    && w.encoded[..|bodies0|] == bodies0
    && Renders(w.encoded[|bodies0|], rep)
  }

  /** JSONHandleError: writes one error response for `err`. */
  method JsonHandleError(w: ResponseWriter<ResponseBody>, err: Error, clock: Time.Clock)
    modifies w
    ensures WroteReply(w, old(w.header), old(w.statusWrites), old(w.encoded), ErrorReply(err))
  {
    w.SetHeader(ContentTypeHeaderName, JsonContentType);
    match err {
      case ApiErr(e) =>
        w.WriteHeader(e.code);
        var now := clock.UnixMillis();
        w.Encode(JsonError(e, now));
      case OtherErr(_) =>
        w.WriteHeader(StatusInternalServerError);
        var now := clock.UnixMillis();
        w.Encode(JsonError(InternalError, now));
    }
  }

  // ---------------------------------------------------------------------------
  // Record forwarding

  /** The message built for `rec`: tagged and typed with the event type. */
  function MessageFor(eventType: string, rec: Record, timestamp: int): (m: Fluent.Message)
  {
    Fluent.Message(eventType, timestamp, map["data" := BytesToString(rec.data), "type" := eventType])
  }

  /** `m` is the message for `rec`, sent at whatever time the clock gave. */
  predicate Carries(m: Fluent.Message, eventType: string, rec: Record)
  {
    m == MessageFor(eventType, rec, m.timestamp)
  }

  /** `sent` holds one message per record, in the records' order. */
  predicate SentFor(sent: seq<Fluent.Message>, eventType: string, records: seq<Record>)
  {
    |sent| == |records| && forall i :: 0 <= i < |sent| ==> Carries(sent[i], eventType, records[i])
  }

  /** One more message for one more record extends the correspondence. */
  lemma SentForSnoc(sent: seq<Fluent.Message>, eventType: string, records: seq<Record>,
                    m: Fluent.Message, rec: Record)
    requires SentFor(sent, eventType, records)
    requires Carries(m, eventType, rec)
    ensures SentFor(sent + [m], eventType, records + [rec])
  {
    var s, rs := sent + [m], records + [rec];
    forall i | 0 <= i < |s|
      ensures Carries(s[i], eventType, rs[i])
    {
      if i < |sent| {
        assert s[i] == sent[i] && rs[i] == records[i];
      }
    }
  }

  /**
   * The forwarding loop: one SendMessage per record, in input order. A failed
   * send is only logged; it neither stops the loop nor changes the outcome.
   */
  method ForwardRecords(client: Fluent.Client, clock: Time.Clock, eventType: string, records: seq<Record>)
    modifies client
    ensures |client.attempts| == |old(client.attempts)| + |records|
    ensures client.attempts[..|old(client.attempts)|] == old(client.attempts)
    ensures SentFor(client.attempts[|old(client.attempts)|..], eventType, records)
  {
    ghost var before := client.attempts;
    for i := 0 to |records|
      invariant |client.attempts| == |before| + i
      invariant client.attempts[..|before|] == before
      invariant SentFor(client.attempts[|before|..], eventType, records[..i])
    {
      var now := clock.UnixSeconds();
      var msg := MessageFor(eventType, records[i], now);
      ghost var sentSoFar := client.attempts[|before|..];
      var err := client.SendMessage(msg);
      // err is only logged.
      SentForSnoc(sentSoFar, eventType, records[..i], msg, records[i]);
      assert client.attempts[|before|..] == sentSoFar + [msg];
      assert records[..i + 1] == records[..i] + [records[i]];
    }
    assert records[..|records|] == records;
  }

  // ---------------------------------------------------------------------------
  // The handler

  /** What firehoseHandler decides for a request, given the decoders. */
  function Handle(r: Request, accessKey: string, codecs: Codecs): (d: Decision)
  {
    match Validate(r.verb, r.header, accessKey)
    case Failure(e) => Reject(e)
    case Success(requestId) =>
      var attributes := codecs.decodeAttributes(HeaderGet(r.header, CommonAttributesHeaderName));
      var eventType := EventTypeOf(attributes.commonAttributes);
      match ParseRequestBody(r.body, codecs.decodeBody)
      case Failure(e) => Reject(e)
      case Success(body) => Forward(requestId, eventType, body.records)
  }

  /** The response the handler writes for a decision. */
  function ReplyOf(d: Decision): (rep: Reply)
  {
    match d
    case Reject(e) => ErrorReply(ApiErr(e))
    case Forward(requestId, _, _) => Reply(StatusOK, requestId, "")
  }

  /**
   * firehoseHandler. Every path writes exactly one response, the one `Handle`
   * decides; messages are sent only on the success path, one per record, and
   * their outcomes have no effect on the response.
   */
  method FirehoseHandler(w: ResponseWriter<ResponseBody>, r: Request, accessKey: string, codecs: Codecs,
                         client: Fluent.Client, clock: Time.Clock)
    modifies w, client
    ensures WroteReply(w, old(w.header), old(w.statusWrites), old(w.encoded), ReplyOf(Handle(r, accessKey, codecs)))
    ensures Handle(r, accessKey, codecs).Reject? ==> client.attempts == old(client.attempts)
    ensures Handle(r, accessKey, codecs).Forward? ==>
              && |client.attempts| >= |old(client.attempts)|
              && client.attempts[..|old(client.attempts)|] == old(client.attempts)
              && SentFor(client.attempts[|old(client.attempts)|..],
                         Handle(r, accessKey, codecs).eventType, Handle(r, accessKey, codecs).records)
  {
    if r.verb != MethodPost {
      JsonHandleError(w, ApiErr(ErrBadReq), clock);
      return;
    }
    var key := HeaderGet(r.header, AccessKeyHeaderName);
    if key == "" || key != accessKey {
      JsonHandleError(w, ApiErr(ErrAuth), clock);
      return;
    }
    var requestId := HeaderGet(r.header, RequestIdHeaderName);
    if requestId == "" {
      JsonHandleError(w, ApiErr(ErrBadReq), clock);
      return;
    }
    var resp := ResponseBody(requestId, 0, "");

    var attributes := codecs.decodeAttributes(HeaderGet(r.header, CommonAttributesHeaderName));
    // A decode error is only logged; whatever map was decoded is scanned.
    var eventType := ClassifyEventType(attributes.commonAttributes);

    var parsed := ParseRequestBody(r.body, codecs.decodeBody);
    if parsed.Failure? {
      JsonHandleError(w, ApiErr(ErrBadReq), clock);
      return;
    }
    ForwardRecords(client, clock, eventType, parsed.value.records);

    var now := clock.UnixMillis();
    resp := resp.(timestamp := now);
    w.SetHeader(ContentTypeHeaderName, JsonContentType);
    w.WriteHeader(StatusOK);
    w.Encode(resp);
  }
}
