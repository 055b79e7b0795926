/**
 * Properties of the firehose handler: which response each kind of request
 * gets, what the event type is, what is forwarded, and what error bodies carry.
 */
module FirehoseProperties {
  import opened Wrappers
  import opened Http
  import opened Firehose
  import Fluent
  import Time

  // ---------------------------------------------------------------------------
  // Validation order

  /** Any request that is not a POST gets 400, whatever its headers. */
  lemma NonPostIsBadRequest(r: Request, accessKey: string, codecs: Codecs)
    requires r.verb != MethodPost
    ensures Handle(r, accessKey, codecs) == Reject(ErrBadReq)
    ensures ReplyOf(Handle(r, accessKey, codecs)) == Reply(StatusBadRequest, "", "bad request")
  {
  }

  /** A request is refused as unauthorized exactly when it is a POST whose key is missing or wrong. */
  lemma UnauthorizedExactly(r: Request, accessKey: string, codecs: Codecs)
    ensures Handle(r, accessKey, codecs) == Reject(ErrAuth) <==>
              r.verb == MethodPost && !(HeaderGet(r.header, AccessKeyHeaderName) == accessKey && accessKey != "")
  {
  }

  /** With an empty configured key no POST gets past the key check: an empty header is refused first. */
  lemma EmptyAccessKeyRefusesEveryPost(r: Request, codecs: Codecs)
    requires r.verb == MethodPost
    ensures ReplyOf(Handle(r, "", codecs)) == Reply(StatusUnauthorized, "", "unauthorized")
  {
  }

  /** A POST with the right key and an empty or missing request id gets 400. */
  lemma MissingRequestIdIsBadRequest(r: Request, accessKey: string, codecs: Codecs)
    requires r.verb == MethodPost && HeaderGet(r.header, AccessKeyHeaderName) == accessKey && accessKey != ""
    requires HeaderGet(r.header, RequestIdHeaderName) == ""
    ensures Handle(r, accessKey, codecs) == Reject(ErrBadReq)
  {
  }

  // ---------------------------------------------------------------------------
  // Event type

  /**
   * The common-attributes header never decides whether a request succeeds:
   * two runs that differ only in how that header decodes (failed or not,
   * whatever map came out) get the same response and forward the same records.
   */
  lemma AttributesNeverFailRequest(r: Request, accessKey: string, codecs1: Codecs, codecs2: Codecs)
    requires codecs1.decodeBody(r.body) == codecs2.decodeBody(r.body)
    ensures ReplyOf(Handle(r, accessKey, codecs1)) == ReplyOf(Handle(r, accessKey, codecs2))
    ensures Handle(r, accessKey, codecs1).Forward? <==> Handle(r, accessKey, codecs2).Forward?
    ensures Handle(r, accessKey, codecs1).Forward? ==>
              Handle(r, accessKey, codecs1).records == Handle(r, accessKey, codecs2).records
  {
  }

  /** When the header decodes to no map at all, the event type stays "unknown". */
  lemma UndecodedAttributesGiveDefault(r: Request, accessKey: string, codecs: Codecs)
    requires codecs.decodeAttributes(HeaderGet(r.header, CommonAttributesHeaderName)).commonAttributes.None?
    requires Handle(r, accessKey, codecs).Forward?
    ensures Handle(r, accessKey, codecs).eventType == DefaultEventType
  {
  }

  /**
   * A missing common-attributes header reads as "", which is not JSON; if the
   * decoder leaves no map for it, the event type is "unknown" and the request
   * is still forwarded whenever the body decodes.
   */
  lemma AbsentAttributesHeader(r: Request, accessKey: string, codecs: Codecs)
    requires CommonAttributesHeaderName !in r.header
    requires JsonLike(codecs)
    requires Validate(r.verb, r.header, accessKey).Success? && codecs.decodeBody(r.body).Some?
    ensures Handle(r, accessKey, codecs).Forward?
    ensures Handle(r, accessKey, codecs).eventType == DefaultEventType
  {
  }

  /** A map that names the event type classifies the batch, even if decoding also reported an error. */
  lemma AttributeNamesEventType(r: Request, accessKey: string, codecs: Codecs, attributes: map<string, string>)
    requires codecs.decodeAttributes(HeaderGet(r.header, CommonAttributesHeaderName)).commonAttributes == Some(attributes)
    requires EventTypeHeaderName in attributes
    requires Handle(r, accessKey, codecs).Forward?
    ensures Handle(r, accessKey, codecs).eventType == attributes[EventTypeHeaderName]
  {
  }

  // ---------------------------------------------------------------------------
  // Body decoding and forwarding

  /** A valid request whose body does not decode gets 400 and forwards nothing. */
  lemma UndecodableBodyIsBadRequest(r: Request, accessKey: string, codecs: Codecs)
    requires Validate(r.verb, r.header, accessKey).Success?
    requires codecs.decodeBody(r.body).None?
    ensures Handle(r, accessKey, codecs) == Reject(ErrBadReq)
  {
  }

  /** An empty body is not JSON; it takes the decode-failure path and gets 400. */
  lemma EmptyBodyIsBadRequest(r: Request, accessKey: string, codecs: Codecs)
    requires Validate(r.verb, r.header, accessKey).Success?
    requires r.body == [] && JsonLike(codecs)
    ensures ReplyOf(Handle(r, accessKey, codecs)) == Reply(StatusBadRequest, "", "bad request")
  {
  }

  /**
   * A request is forwarded exactly when it passes validation and its body
   * decodes; it is then answered with 200 and the request-id header (not the
   * body's own requestId), and every decoded record is forwarded.
   */
  lemma ForwardedExactly(r: Request, accessKey: string, codecs: Codecs)
    ensures Handle(r, accessKey, codecs).Forward? <==>
              Validate(r.verb, r.header, accessKey).Success? && codecs.decodeBody(r.body).Some?
    ensures Handle(r, accessKey, codecs).Forward? ==>
              && Handle(r, accessKey, codecs).requestId == HeaderGet(r.header, RequestIdHeaderName)
              && Handle(r, accessKey, codecs).records == codecs.decodeBody(r.body).value.records
              && ReplyOf(Handle(r, accessKey, codecs)) == Reply(StatusOK, HeaderGet(r.header, RequestIdHeaderName), "")
  {
  }

  /** The record `{"data":"aGVsbG8="}` is forwarded as one message whose data is "hello". */
  lemma HelloRecordIsForwarded(r: Request, accessKey: string, codecs: Codecs, timestamp: int)
    requires Validate(r.verb, r.header, accessKey).Success?
    requires codecs.decodeBody(r.body) == Some(RequestBody("", 0, [Record([104, 101, 108, 108, 111])]))
    ensures Handle(r, accessKey, codecs).Forward?
    ensures |Handle(r, accessKey, codecs).records| == 1
    ensures MessageFor(Handle(r, accessKey, codecs).eventType, Handle(r, accessKey, codecs).records[0], timestamp).record["data"] == "hello"
  {
    var hello := BytesToString([104, 101, 108, 108, 111]);
    assert hello == "hello" by {
      assert hello[0] == 'h' && hello[1] == 'e' && hello[2] == 'l' && hello[3] == 'l' && hello[4] == 'o';
    }
  }

  /** string(record.Data) loses nothing: the bytes come back from the string. */
  lemma BytesRoundTrip(data: seq<byte>)
    ensures StringToBytes(BytesToString(data)) == data
  {
    var back := StringToBytes(BytesToString(data));
    assert |back| == |data|;
    forall i | 0 <= i < |data|
      ensures back[i] == data[i]
    {
    }
  }

  /** Two records with different data are forwarded with different data strings. */
  lemma DataIsInjective(a: seq<byte>, b: seq<byte>)
    requires BytesToString(a) == BytesToString(b)
    ensures a == b
  {
    BytesRoundTrip(a);
    BytesRoundTrip(b);
  }

  /** Forwarding two batches one after the other forwards their concatenation. */
  lemma SentForConcat(sent1: seq<Fluent.Message>, sent2: seq<Fluent.Message>, eventType: string,
                                         records1: seq<Record>, records2: seq<Record>)
    requires SentFor(sent1, eventType, records1)
    requires SentFor(sent2, eventType, records2)
    ensures SentFor(sent1 + sent2, eventType, records1 + records2)
  {
    var s, rs := sent1 + sent2, records1 + records2;
    forall i | 0 <= i < |s|
      ensures Carries(s[i], eventType, rs[i])
    {
      if i < |sent1| {
        assert s[i] == sent1[i] && rs[i] == records1[i];
      } else {
        assert s[i] == sent2[i - |sent1|] && rs[i] == records2[i - |sent1|];
      }
    }
  }

  /**
   * Forwarding is not deduplicated: handling the same request twice sends
   * every record twice, and each run writes its own response.
   */
  method HandleTwice(w: ResponseWriter<ResponseBody>, r: Request, accessKey: string, codecs: Codecs,
                     client: Fluent.Client, clock: Time.Clock)
    requires Handle(r, accessKey, codecs).Forward?
    modifies w, client
    ensures |w.statusWrites| == |old(w.statusWrites)| + 2
    ensures |client.attempts| == |old(client.attempts)| + 2 * |Handle(r, accessKey, codecs).records|
    ensures client.attempts[..|old(client.attempts)|] == old(client.attempts)
    ensures SentFor(client.attempts[|old(client.attempts)|..], Handle(r, accessKey, codecs).eventType,
                    Handle(r, accessKey, codecs).records + Handle(r, accessKey, codecs).records)
  {
    var d := Handle(r, accessKey, codecs);
    ghost var start := client.attempts;
    FirehoseHandler(w, r, accessKey, codecs, client, clock);
    ghost var middle := client.attempts;
    FirehoseHandler(w, r, accessKey, codecs, client, clock);
    ghost var first, second := middle[|start|..], client.attempts[|middle|..];
    SentForConcat(first, second, d.eventType, d.records, d.records);
    assert client.attempts[|start|..] == first + second;
  }

  // ---------------------------------------------------------------------------
  // Error responses

  /**
   * Every error the handler writes is 400 "bad request" or 401 "unauthorized",
   * and none carries a request id, even once the request-id header was read.
   */
  lemma HandlerErrorsCarryNoRequestId(r: Request, accessKey: string, codecs: Codecs)
    requires Handle(r, accessKey, codecs).Reject?
    ensures ReplyOf(Handle(r, accessKey, codecs)).requestId == ""
    ensures ReplyOf(Handle(r, accessKey, codecs)) in
              {Reply(StatusBadRequest, "", "bad request"), Reply(StatusUnauthorized, "", "unauthorized")}
  {
  }

  /** JSONHandleError: an APIError keeps its status, message and id; anything else is a bare 500. */
  lemma ErrorReplyMapping(err: Error)
    ensures err.ApiErr? ==> ErrorReply(err) == Reply(err.api.code, err.api.requestId, err.api.msg)
    ensures err.OtherErr? ==> ErrorReply(err) == Reply(StatusInternalServerError, "", "internal server error")
  {
  }

  /**
   * On the wire, an error body has no requestId field and has an errorMessage;
   * a success body has the request id and no errorMessage.
   */
  lemma EncodedBodies(r: Request, accessKey: string, codecs: Codecs, b: ResponseBody)
    requires Renders(b, ReplyOf(Handle(r, accessKey, codecs)))
    ensures Handle(r, accessKey, codecs).Reject? ==>
              && "requestId" !in JsonFields(b)
              && "errorMessage" in JsonFields(b)
              && JsonFields(b)["errorMessage"] == JString(Handle(r, accessKey, codecs).error.msg)
    ensures Handle(r, accessKey, codecs).Forward? ==>
              && "errorMessage" !in JsonFields(b)
              && "requestId" in JsonFields(b)
              && JsonFields(b)["requestId"] == JString(HeaderGet(r.header, RequestIdHeaderName))
  {
  }
}
