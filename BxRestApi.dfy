/**
 * The request pipeline of the Bitmex REST client: parameter compaction, the
 * signed path and body, the authentication headers, and the resolution of a
 * reply into a value, an exchange error or the original decoding error.
 */
module BxRestApi {
  import opened Wrappers
  import opened Numerals
  import opened Json
  import opened Bitmex

  /** `BxSecurity`: `.none` is `Unsigned`, `.signature` is `Signed`. */
  datatype Security = Unsigned | Signed

  /** `BxTimeFormat` */
  datatype TimeFormat = Seconds | Milliseconds

  /** The raw value of each `BxTimeFormat` case. */
  function TimeFormatPattern(t: TimeFormat): string {
    match t
    case Seconds => "yyyy-MM-dd'T'HH:mm:ssZZZZ"
    case Milliseconds => "yyyy-MM-dd'T'HH:mm:ss.SSSZZZZZ"
  }

  /** The pattern the client's `DateFormatter` is given when it is built. */
  const FormatterPattern: string := "yyyy-MM-dd'T'HH:mm:ss.SSSZZZZ"

  /** A `dateDecodingStrategy` of the shared decoder. */
  datatype DateStrategy = Iso8601 | Formatted(pattern: string)

  /**
   * The strategy a request decodes with: ISO 8601 for seconds, the client's
   * formatter for milliseconds.  The formatter's pattern, not the raw value
   * of `.ms`, is the one in force.
   */
  function DateStrategyFor(t: TimeFormat): (s: DateStrategy)
    ensures s.Iso8601? <==> t == Seconds
    ensures s.Formatted? ==> s.pattern == FormatterPattern && s.pattern != TimeFormatPattern(t)
  {
    match t
    case Seconds => Iso8601
    case Milliseconds => Formatted(FormatterPattern)
  }

  // ---------------------------------------------------------------------------
  // Parameters
  // ---------------------------------------------------------------------------

  /**
   * A `StringConvertible` parameter value.  A dictionary of strings is kept
   * as its entries in iteration order; any other conforming value is kept as
   * the text its own `stringValue` produces, which is outside this model.
   */
  datatype ParamValue = Text(text: string) | Entries(entries: seq<(string, string)>)

  /** One dictionary entry as `{key:value}`. */
  function EntryText(entry: (string, string)): (s: string)
    ensures |s| == |entry.0| + |entry.1| + 3 && s[0] == '{' && s[|s| - 1] == '}'
  {
    "{" + entry.0 + ":" + entry.1 + "}"
  }

  /** The entries rendered one by one and joined with commas. */
  function JoinedEntries(entries: seq<(string, string)>): (s: string)
    ensures s == "" <==> entries == []
    ensures entries != [] ==> s[0] == '{' && s[|s| - 1] == '}'
  {
    if entries == [] then ""
    else if |entries| == 1 then EntryText(entries[0])
    else EntryText(entries[0]) + "," + JoinedEntries(entries[1..])
  }

  /** `stringValue` */
  function StringValue(v: ParamValue): string {
    match v
    case Text(text) => text
    case Entries(entries) => JoinedEntries(entries)
  }

  /** Whether `compacted` keeps a parameter: present, with a non-empty rendering. */
  predicate Kept(v: Option<ParamValue>) {
    v.Some? && |StringValue(v.value)| != 0
  }

  /** What `compacted` promises, stated key by key. */
  function Compaction(params: map<string, Option<ParamValue>>): (r: map<string, string>)
    ensures forall k :: k in r <==> k in params && Kept(params[k])
    ensures forall k | k in r :: k in params && params[k].Some? && r[k] == StringValue(params[k].value) && r[k] != ""
  {
    map k | k in params && Kept(params[k]) :: StringValue(params[k].value)
  }

  /**
   * `compacted`: visits every entry and stores its rendering, or removes
   * the key when the value is absent or renders empty.
   */
  method Compacted(params: map<string, Option<ParamValue>>) returns (result: map<string, string>)
    ensures result == Compaction(params)
  {
    result := map[];
    var pending := params.Keys;
    while pending != {}
      invariant pending <= params.Keys
      invariant result == Compaction(params - pending)
      decreases |pending|
    {
      var key :| key in pending;
      var value := params[key];
      if value.Some? && |StringValue(value.value)| != 0 {
        result := result[key := StringValue(value.value)];
      } else {
        result := result - {key};
      }
      pending := pending - {key};
      assert params - pending == (params - (pending + {key}))[key := value];
    }
    assert params - pending == params;
  }

  /** A dictionary parameter survives compaction exactly when it has an entry. */
  lemma EntriesKept(entries: seq<(string, string)>)
    ensures Kept(Some(Entries(entries))) <==> entries != []
  {
  }

  /** Compacting a compacted dictionary again changes nothing. */
  lemma CompactionIdempotent(params: map<string, Option<ParamValue>>)
    ensures var once := Compaction(params);
      Compaction(map k | k in once :: Some(Text(once[k]))) == once
  {
    var once := Compaction(params);
    var again := Compaction(map k | k in once :: Some(Text(once[k])));
    assert again.Keys == once.Keys;
  }

  // ---------------------------------------------------------------------------
  // The signed path and body
  // ---------------------------------------------------------------------------

  /** What `URLEncoding.default` made of the request: its query and its body as UTF-8 text. */
  datatype Encoded = Encoded(query: Option<string>, body: Option<string>)

  /**
   * Building the `URLRequest` and encoding the parameters into it: library
   * code outside this model, which may throw (the error's description).
   */
  type Encoder = (string, Verb, map<string, string>) -> Result<Encoded, string>

  /** The `(path, data)` pair the signature covers. */
  datatype SignedParts = SignedParts(path: string, data: string)

  /** The path followed by `"?" + query` when there is a query; the body or `""`. */
  function SignedPartsOf(urlPath: string, e: Encoded): (r: SignedParts)
    ensures |r.path| >= |urlPath|
    ensures r.path[..|urlPath|] == urlPath
    ensures r.path == urlPath <==> e.query.None?
    ensures e.query.Some? ==> r.path[|urlPath|] == '?' && r.path[|urlPath| + 1..] == e.query.value
    ensures r.data == "" <==> e.body.None? || e.body.value == ""
  {
    var query := if e.query.Some? then "?" + e.query.value else "";
    var body := if e.body.Some? then e.body.value else "";
    assert (urlPath + query)[..|urlPath|] == urlPath;
    SignedParts(urlPath + query, body)
  }

  /** Splits a signed path at its first '?' back into path and query. */
  function SplitQuery(path: string): (string, Option<string>) {
    if path == [] then ([], None)
    else if path[0] == '?' then ([], Some(path[1..]))
    else
      var (rest, query) := SplitQuery(path[1..]);
      ([path[0]] + rest, query)
  }

  /** A URL path never holds a literal '?', so the signed path gives back path and query. */
  lemma {:induction false} SplitQueryInverts(urlPath: string, e: Encoded)
    requires '?' !in urlPath
    ensures SplitQuery(SignedPartsOf(urlPath, e).path) == (urlPath, e.query)
  {
    var query := if e.query.Some? then "?" + e.query.value else "";
    SplitQueryAfter(urlPath, query);
    assert SignedPartsOf(urlPath, e).path == urlPath + query;
    if e.query.Some? {
      assert query[1..] == e.query.value;
    }
  }

  lemma {:induction false} SplitQueryAfter(prefix: string, query: string)
    requires '?' !in prefix
    requires query == [] || query[0] == '?'
    ensures SplitQuery(prefix + query) == (prefix, if query == [] then None else Some(query[1..]))
  {
    if prefix != [] {
      assert (prefix + query)[1..] == prefix[1..] + query;
      SplitQueryAfter(prefix[1..], query);
      assert [prefix[0]] + prefix[1..] == prefix;
    } else {
      assert prefix + query == query;
    }
  }

  /** The failures the handler can receive. */
  datatype Failure =
    | EncodingFailed(reason: string)    // `URLRequest` or `URLEncoding` threw
    | TransportFailed(reason: string)   // the transport reported an error
    | Undecodable(cause: DecodeError)   // the reply decodes as neither `T` nor the error envelope
    | Exchange(reply: BxError)          // the reply is the exchange's error envelope

  /** `pathAndData(url:method:nonce:parameters:)` */
  function PathAndData(encode: Encoder, urlPath: string, verb: Verb, parameters: map<string, string>): (r: Result<SignedParts, Failure>)
    ensures r.Err? <==> encode(urlPath, verb, parameters).Err?
    ensures r.Err? ==> r.error == EncodingFailed(encode(urlPath, verb, parameters).error)
    ensures r.Ok? ==> r.value == SignedPartsOf(urlPath, encode(urlPath, verb, parameters).value)
  {
    match encode(urlPath, verb, parameters)
    case Err(reason) => Err(EncodingFailed(reason))
    case Ok(e) => Ok(SignedPartsOf(urlPath, e))
  }

  // ---------------------------------------------------------------------------
  // Authentication headers
  // ---------------------------------------------------------------------------

  /** `httpHeaders(nonce:signature:)` */
  function HttpHeaders(apiId: string, nonce: Int64, signature: string): (h: map<string, string>)
    ensures h.Keys == {"api-nonce", "api-key", "api-signature"}
    ensures h["api-key"] == apiId && h["api-signature"] == signature
    ensures h["api-nonce"] == Decimal(nonce) && ParseInt64(h["api-nonce"]) == Some(nonce)
  {
    DecimalRoundTrip(nonce);
    map["api-nonce" := Decimal(nonce), "api-key" := apiId, "api-signature" := signature]
  }

  /** `BxRestAPI`: the credentials the client was built with. */
  datatype RestApi = RestApi(apiId: string, apiSecret: string)

  /** The headers of a signed request: one nonce for the signature and for `api-nonce`. */
  function SignedHeaders(api: RestApi, mac: Mac, verb: Verb, parts: SignedParts, nonce: Int64): map<string, string> {
    HttpHeaders(api.apiId, nonce, Signature(mac, api.apiSecret, verb, parts.path, nonce, parts.data))
  }

  /**
   * The nonce the `api-nonce` header announces is the nonce inside the
   * signed input, and the signature header carries the MAC of that input.
   */
  lemma SignedHeadersShareNonce(api: RestApi, mac: Mac, verb: Verb, parts: SignedParts, nonce: Int64)
    ensures var h := SignedHeaders(api, mac, verb, parts, nonce);
      var input := SigningInput(verb, parts.path, nonce, parts.data);
      var n := |verb.token| + |parts.path|;
      h.Keys == {"api-nonce", "api-key", "api-signature"} &&
      h["api-key"] == api.apiId &&
      h["api-nonce"] == Decimal(nonce) == input[n..n + |Decimal(nonce)|] &&
      ParseInt64(h["api-nonce"]) == Some(nonce) &&
      ParseHex(h["api-signature"]) == Some(mac(api.apiSecret, input))
  {
    SigningInputPieces(verb, parts.path, nonce, parts.data);
  }

  // ---------------------------------------------------------------------------
  // The error envelope
  // ---------------------------------------------------------------------------

  /** `BxResponse.Error` */
  datatype BxError = BxError(name: string, message: string)

  const BxErrorSchema: Schema := [Slot("name", KString), Slot("message", KString)]

  function BxErrorFields(e: BxError): seq<Field> {
    [FStr(e.name), FStr(e.message)]
  }

  /** The synthesized `BxResponse.Error.init(from:)`. */
  function DecodeBxError(c: Codec, j: JValue): (r: Result<BxError, DecodeError>)
    ensures KeyedOutcome(c, j, BxErrorSchema, if r.Ok? then Ok(BxErrorFields(r.value)) else Err(r.error))
  {
    var fields :- DecodeObject(c, j, BxErrorSchema);
    Ok(BxError(fields[0].s, fields[1].s))
  }

  /** `ErrorBox`: the reply `{"error": {"name": ..., "message": ...}}`. */
  function DecodeErrorBox(c: Codec, j: JValue): (r: Result<BxError, DecodeError>)
    ensures !j.JObj? ==> r == Err(NotAContainer)
    ensures j.JObj? && "error" !in j.fields ==> r == Err(KeyNotFound("error"))
    ensures j.JObj? && "error" in j.fields && j.fields["error"].JNull? ==> r == Err(ValueNotFound(Key("error")))
    ensures j.JObj? && "error" in j.fields && !j.fields["error"].JNull? ==> r == DecodeBxError(c, j.fields["error"])
  {
    if !j.JObj? then Err(NotAContainer)
    else if "error" !in j.fields then Err(KeyNotFound("error"))
    else if j.fields["error"].JNull? then Err(ValueNotFound(Key("error")))
    else DecodeBxError(c, j.fields["error"])
  }

  /** The envelope the exchange sends for `e`, with any further keys beside it. */
  function EncodeErrorBox(w: Renderer, e: BxError, others: map<string, JValue>): JValue {
    JObj(others["error" := JObj(EncodeObject(w, BxErrorSchema, BxErrorFields(e)))])
  }

  lemma ErrorBoxRoundTrip(c: Codec, w: Renderer, e: BxError, others: map<string, JValue>)
    ensures DecodeErrorBox(c, EncodeErrorBox(w, e, others)) == Ok(e)
  {
    assert AllAdmissible(c, BxErrorFields(e), BxErrorSchema);
    DecodeObjectRoundTrip(c, w, BxErrorSchema, BxErrorFields(e));
  }

  /** `description`: the name, a colon and a space, then the message. */
  function Description(e: BxError): (s: string)
    ensures |s| == |e.name| + 2 + |e.message|
    ensures s[..|e.name|] == e.name && s[|e.name|..|e.name| + 2] == ": " && s[|e.name| + 2..] == e.message
  {
    var s := e.name + ": " + e.message;
    assert s[..|e.name| + 2] == e.name + ": ";
    s
  }

  // ---------------------------------------------------------------------------
  // Resolution of a reply
  // ---------------------------------------------------------------------------

  /** `response.result`: the bytes of the reply, or the transport's error. */
  datatype Response = Delivered(body: seq<byte>) | Failed(reason: string)

  /** JSON parsing of the reply's bytes, outside this model; `None` when they are not JSON. */
  type Parser = seq<byte> -> Option<JValue>

  /** `decoder.decode(ErrorBox.self, from:)` with the decoder's current conversions. */
  function EnvelopeDecoder(parse: Parser, c: Codec): seq<byte> -> Result<BxError, DecodeError> {
    body => if parse(body).None? then Err(NotJson) else DecodeErrorBox(c, parse(body).value)
  }

  /**
   * The reply handler: the transport's error unchanged; otherwise the value
   * of type `T`; otherwise the exchange's error envelope; otherwise the
   * error of the decode as `T`.
   */
  function Resolve<T>(response: Response, decodeT: seq<byte> -> Result<T, DecodeError>,
                      decodeBox: seq<byte> -> Result<BxError, DecodeError>): (r: Result<T, Failure>)
    ensures response.Failed? ==> r == Err(TransportFailed(response.reason))
    ensures r.Ok? <==> response.Delivered? && decodeT(response.body).Ok?
    ensures r.Ok? ==> r.value == decodeT(response.body).value
    ensures r.Err? && r.error.Exchange? <==>
      response.Delivered? && decodeT(response.body).Err? && decodeBox(response.body).Ok?
    ensures r.Err? && r.error.Exchange? ==> r.error.reply == decodeBox(response.body).value
    ensures r.Err? && r.error.Undecodable? ==> r.error.cause == decodeT(response.body).error
    ensures response.Delivered? && decodeT(response.body).Err? && decodeBox(response.body).Err? ==>
      r == Err(Undecodable(decodeT(response.body).error))
  {
    match response
    case Failed(reason) => Err(TransportFailed(reason))
    case Delivered(body) =>
      match decodeT(body)
      case Ok(value) => Ok(value)
      case Err(parsingError) =>
        match decodeBox(body)
        case Ok(bitmexError) => Err(Exchange(bitmexError))
        case Err(_) => Err(Undecodable(parsingError))
  }

  /** A transport failure is passed on without consulting either decoder. */
  lemma TransportFailureUndecoded<T>(reason: string,
      decodeT: seq<byte> -> Result<T, DecodeError>, decodeBox: seq<byte> -> Result<BxError, DecodeError>,
      decodeT': seq<byte> -> Result<T, DecodeError>, decodeBox': seq<byte> -> Result<BxError, DecodeError>)
    ensures Resolve(Failed(reason), decodeT, decodeBox) == Resolve(Failed(reason), decodeT', decodeBox')
  {
  }

  /** When the reply decodes as `T`, the envelope decoder does not matter. */
  lemma SuccessIgnoresEnvelope<T>(body: seq<byte>, decodeT: seq<byte> -> Result<T, DecodeError>,
      decodeBox: seq<byte> -> Result<BxError, DecodeError>, decodeBox': seq<byte> -> Result<BxError, DecodeError>)
    requires decodeT(body).Ok?
    ensures Resolve(Delivered(body), decodeT, decodeBox) == Resolve(Delivered(body), decodeT, decodeBox')
  {
  }

  /**
   * An error envelope from the exchange, which does not decode as `T`,
   * reaches the handler as that exchange error.
   */
  lemma EnvelopeReachesHandler<T>(body: seq<byte>, parse: Parser, c: Codec, w: Renderer, e: BxError,
      others: map<string, JValue>, decodeT: seq<byte> -> Result<T, DecodeError>)
    requires parse(body) == Some(EncodeErrorBox(w, e, others)) && decodeT(body).Err?
    ensures Resolve(Delivered(body), decodeT, EnvelopeDecoder(parse, c)) == Err(Exchange(e))
  {
    ErrorBoxRoundTrip(c, w, e, others);
  }

  /**
   * A reply that is neither a `T` nor an error envelope (bytes that are not
   * JSON, or JSON of another shape): the handler gets the decode error of `T`.
   */
  lemma NoEnvelopeKeepsOriginalError<T>(body: seq<byte>, parse: Parser, c: Codec,
      decodeT: seq<byte> -> Result<T, DecodeError>)
    requires EnvelopeDecoder(parse, c)(body).Err? && decodeT(body).Err?
    ensures Resolve(Delivered(body), decodeT, EnvelopeDecoder(parse, c)) == Err(Undecodable(decodeT(body).error))
  {
  }

  /** JSON objects without an `"error"` key, such as `{}`, are not envelopes. */
  lemma ObjectWithoutErrorIsNoEnvelope(body: seq<byte>, parse: Parser, c: Codec, fields: map<string, JValue>)
    requires parse(body) == Some(JObj(fields)) && "error" !in fields
    ensures EnvelopeDecoder(parse, c)(body) == Err(KeyNotFound("error"))
  {
  }

  // ---------------------------------------------------------------------------
  // customRequest
  // ---------------------------------------------------------------------------

  /** The URL `baseUrl.appendingPathComponent(endpoint)`, and its path. */
  datatype Url = Url(text: string, path: string)

  /** What is handed to the transport. */
  datatype Request = Request(url: Url, verb: Verb, parameters: map<string, string>, headers: map<string, string>)

  /**
   * The transport: `respond` is how the network would answer each request,
   * `sent` the requests dispatched so far.
   */
  class Transport {
    const respond: Request -> Response
    var sent: seq<Request>

    constructor(respond: Request -> Response)
      ensures this.respond == respond && sent == []
    {
      this.respond := respond;
      sent := [];
    }

    method Send(request: Request) returns (response: Response)
      modifies this
      ensures sent == old(sent) + [request] && response == respond(request)
    {
      sent := sent + [request];
      response := respond(request);
    }
  }

  /** The completion handler, recording every outcome it receives. */
  class Handler<T> {
    var received: seq<Result<T, Failure>>

    constructor()
      ensures received == []
    {
      received := [];
    }

    method Handle(outcome: Result<T, Failure>)
      modifies this
      ensures received == old(received) + [outcome]
    {
      received := received + [outcome];
    }
  }

  /**
   * `customRequest(at:with:params:security:timeFormat:handle:)`.  `decodeWith`
   * is `decoder.decode(T.self, from:)` under a date strategy and `codecFor`
   * the conversions of the same decoder, both outside this model.
   */
  method CustomRequest<T>(api: RestApi, clock: Clock, transport: Transport, handler: Handler<T>,
      url: Url, verb: Verb, params: map<string, Option<ParamValue>>, security: Security, timeFormat: TimeFormat,
      encode: Encoder, mac: Mac, parse: Parser, codecFor: DateStrategy -> Codec,
      decodeWith: DateStrategy -> seq<byte> -> Result<T, DecodeError>)
    modifies clock, transport, handler
    ensures |handler.received| == |old(handler.received)| + 1
    ensures security == Unsigned ==>
      clock.readings == old(clock.readings) &&
      transport.sent == old(transport.sent) + [Request(url, verb, Compaction(params), map[])]
    ensures security == Signed ==>
      var nonce := clock.reading(old(clock.readings));
      var parts := PathAndData(encode, url.path, verb, Compaction(params));
      clock.readings == old(clock.readings) + 1 &&
      (parts.Err? ==>
        transport.sent == old(transport.sent) && handler.received == old(handler.received) + [Err(parts.error)]) &&
      (parts.Ok? ==>
        transport.sent == old(transport.sent) +
          [Request(url, verb, Compaction(params), SignedHeaders(api, mac, verb, parts.value, nonce))])
    ensures |transport.sent| == |old(transport.sent)| + 1 ==>
      var strategy := DateStrategyFor(timeFormat);
      handler.received == old(handler.received) +
        [Resolve(transport.respond(transport.sent[|transport.sent| - 1]), decodeWith(strategy),
                 EnvelopeDecoder(parse, codecFor(strategy)))]
  {
    var parameters := Compacted(params);
    var headers: map<string, string>;
    match security {
      case Unsigned =>
        headers := map[];
      case Signed =>
        var nonce := clock.Nonce();
        var parts := PathAndData(encode, url.path, verb, parameters);
        if parts.Err? {
          handler.Handle(Err(parts.error));
          return;
        }
        headers := SignedHeaders(api, mac, verb, parts.value, nonce);
    }
    var strategy := DateStrategyFor(timeFormat);
    var response := transport.Send(Request(url, verb, parameters, headers));
    handler.Handle(Resolve(response, decodeWith(strategy), EnvelopeDecoder(parse, codecFor(strategy))));
  }
}
