/**
 * OkHttpStreamClient: the same translation over OkHttp. Its rules differ from
 * the Jetty client's: no default content type, the HTTP method is set only for
 * a message with a body, the binary body is sent as it is, and a non-empty
 * response body is text exactly when the response has a Content-Type.
 * The engine is an oracle: newCall(request).execute() answers a response, or
 * None for any exception it throws.
 */
module OkHttpClient {
  import opened Wrappers
  import opened JavaLang
  import opened Headers
  import opened Messages

  /** A RequestBody: the bytes it sends and its media type, if any. */
  datatype RequestBody = RequestBody(bytes: seq<byte>, mediaType: Option<string>)

  /** A call of the builder's method(name, body). */
  datatype MethodCall = MethodCall(name: string, body: Option<RequestBody>)

  /** What Request.Builder holds: the url, the last method call (None: never called, the builder's default GET) and the header lines. */
  datatype Builder = Builder(url: string, methodCall: Option<MethodCall>, headers: seq<Pair>)

  /** The response body as read by bytes(): absent, its bytes, or unreadable (bytes() threw). */
  datatype ResponseBody = NoResponseBody | ResponseBytes(bytes: seq<byte>) | UnreadableBody

  datatype Response = Response(code: int, headers: seq<Pair>, body: ResponseBody)

  /** The HTTP engine: what executing a request answers (None: execute threw). */
  datatype Engine = Engine(execute: Builder -> Option<Response>)

  /** The response message parseResponse builds, as a value. */
  datatype Parsed = Parsed(operation: UpnpResponse, headers: seq<Entry>, body: Body)

  /** What sendRequest does, as a value. */
  datatype Answer = Thrown(error: RequestError) | Null | Message(parsed: Parsed)

  /** sendRequest's result; a returned message is an object. */
  datatype Outcome = Raised(error: RequestError) | ReturnedNull | Returned(message: StreamResponseMessage)

  /** The type part of the default content type (text/xml), which the response test compares against. */
  const DEFAULT_CONTENT_TYPE_TYPE := "text"

  /** message.bodyBytes for a binary body. */
  function BodyBytes(body: Body): Option<seq<byte>> {
    if body.BytesBody? then Some(body.bytes) else None
  }

  /** The header lines addHeaders appends. */
  function HeaderLines(es: seq<Entry>, userAgent: string): seq<Pair> {
    UserAgentLines(es, userAgent) + Flatten(es)
  }

  /** The builder after addBody, or the exception the encoding throws. */
  function WithBody(builder: Builder, es: seq<Entry>, op: UpnpRequest, body: Body, lib: Library): (r: Result<Builder, RequestError>)
    ensures body == NoBody ==> r == Success(builder)
    ensures r.Failure? <==> body.StringBody? && lib.encode(body.text, ContentTypeCharset(es, lib).GetOr(UTF_8)).None?
    ensures r.Failure? ==> r.error == UnsupportedCharset
    ensures r.Success? && body != NoBody ==>
              && r.value.url == builder.url
              && r.value.methodCall.Some? && r.value.methodCall.value.name == op.httpMethod
              && r.value.methodCall.value.body.Some?
              && r.value.methodCall.value.body.value.mediaType == ContentTypeOf(es)
              && r.value.headers == builder.headers
                                    + [(CONTENT_LENGTH, Decimal(|r.value.methodCall.value.body.value.bytes|))]
  {
    match body
    case NoBody => Success(builder)
    case StringBody(text) =>
      var contentType := ContentTypeOf(es);
      (match lib.encode(text, ContentTypeCharset(es, lib).GetOr(UTF_8))
       case None => Failure(UnsupportedCharset)
       case Some(bytes) =>
         Success(builder.(headers := builder.headers + [(CONTENT_LENGTH, Decimal(|bytes|))],
                          methodCall := Some(MethodCall(op.httpMethod, Some(RequestBody(bytes, contentType)))))))
    case BytesBody(bytes) =>
      var requestBody := RequestBody(bytes, ContentTypeOf(es));
      Success(builder.(headers := builder.headers + [(CONTENT_LENGTH, Decimal(|bytes|))],
                       methodCall := Some(MethodCall(op.httpMethod, Some(requestBody)))))
  }

  /** The request sendRequest builds (the builder chain at the start of OkHttpStreamClient.sendRequest), or the exception thrown while building it. */
  function BuildRequest(config: Configuration, lib: Library, op: UpnpRequest, major: int, minor: int,
                        es: seq<Entry>, body: Body): (r: Result<Builder, RequestError>)
    ensures r.Success? ==> r.value.url == op.uri
    ensures r.Success? ==> |r.value.headers| >= |HeaderLines(es, config.userAgentValue(major, minor))|
    ensures r.Success? ==> r.value.headers[..|HeaderLines(es, config.userAgentValue(major, minor))|]
                           == HeaderLines(es, config.userAgentValue(major, minor))
  {
    WithBody(Builder(op.uri, None, HeaderLines(es, config.userAgentValue(major, minor))), es, op, body, lib)
  }

  /** parseResponse on values: None is a null result or an exception inside it. */
  function ParsedResponse(resp: Response, lib: Library): (r: Option<Parsed>)
    ensures lib.statusMessage(resp.code).None? || resp.body == UnreadableBody ==> r.None?
    ensures r.Some? ==> && r.value.operation == UpnpResponse(resp.code, lib.statusMessage(resp.code).value)
                        && r.value.headers == AddedAll([], resp.headers)
    ensures r.Some? && r.value.body != NoBody ==> resp.body.ResponseBytes? && resp.body.bytes != []
  {
    match lib.statusMessage(resp.code)
    case None => None
    case Some(msg) =>
      var op := UpnpResponse(resp.code, msg);
      var es := AddedAll([], resp.headers);
      match resp.body
      case NoResponseBody => Some(Parsed(op, es, NoBody))
      case UnreadableBody => None
      case ResponseBytes(bytes) =>
        if |bytes| == 0 then Some(Parsed(op, es, NoBody))
        else
          var contentType := LastValue(resp.headers, Key(CONTENT_TYPE));
          var isText := contentType == Some(DEFAULT_CONTENT_TYPE_TYPE);
          if contentType.Some? || isText then
            (match BodyCharacters(es, bytes, lib)
             case None => None
             case Some(text) => Some(Parsed(op, es, StringBody(text))))
          else Some(Parsed(op, es, BytesBody(bytes)))
  }

  /** The whole of sendRequest on values. */
  function SendSpec(engine: Engine, config: Configuration, lib: Library, op: UpnpRequest, major: int, minor: int,
                    es: seq<Entry>, body: Body): (a: Answer)
    ensures a.Thrown? <==> BuildRequest(config, lib, op, major, minor, es, body).Failure?
    ensures a.Message? ==> && engine.execute(BuildRequest(config, lib, op, major, minor, es, body).value).Some?
                           && a.parsed.operation.statusCode == engine.execute(BuildRequest(config, lib, op, major, minor, es, body).value).value.code
  {
    match BuildRequest(config, lib, op, major, minor, es, body)
    case Failure(e) => Thrown(e)
    case Success(request) =>
      match engine.execute(request)
      case None => Null
      case Some(resp) =>
        match ParsedResponse(resp, lib)
        case None => Null
        case Some(p) => Message(p)
  }

  /** The sent header lines: addHeaders' lines, then at most one Content-Length line, present exactly for a message with a body. */
  lemma HeadersShape(config: Configuration, lib: Library, op: UpnpRequest, major: int, minor: int,
                     es: seq<Entry>, body: Body)
    requires BuildRequest(config, lib, op, major, minor, es, body).Success?
    ensures var req := BuildRequest(config, lib, op, major, minor, es, body).value;
            var lines := HeaderLines(es, config.userAgentValue(major, minor));
            && |req.headers| == |lines| + (if body == NoBody then 0 else 1)
            && req.headers == lines + req.headers[|lines|..]
            && (body != NoBody ==> req.headers[|lines|].0 == CONTENT_LENGTH)
  {
  }

  /** User-Agent: the configured value is sent exactly when the message has none, and the message's own values are kept. */
  lemma UserAgentInjectedOnlyWhenMissing(config: Configuration, lib: Library, op: UpnpRequest, major: int, minor: int,
                                         es: seq<Entry>, body: Body)
    requires BuildRequest(config, lib, op, major, minor, es, body).Success?
    ensures var req := BuildRequest(config, lib, op, major, minor, es, body).value;
            Select(req.headers, Key(USER_AGENT))
            == (if HasKey(es, Key(USER_AGENT)) then ValuesOf(es, Key(USER_AGENT)) else [config.userAgentValue(major, minor)])
  {
    var k := Key(USER_AGENT);
    var lines := HeaderLines(es, config.userAgentValue(major, minor));
    var req := BuildRequest(config, lib, op, major, minor, es, body).value;
    UserAgentRule(es, config.userAgentValue(major, minor));
    HeadersShape(config, lib, op, major, minor, es, body);
    SelectAppend(lines, req.headers[|lines|..], k);
    TailSelect(req.headers[|lines|..], k);
  }

  lemma TailSelect(tail: seq<Pair>, k: string)
    requires |tail| <= 1 && (tail != [] ==> tail[0].0 == CONTENT_LENGTH)
    requires k != Key(CONTENT_LENGTH)
    ensures Select(tail, k) == []
  {
    if tail != [] {
      assert tail[1..] == [];
    }
  }

  /** Every name other than User-Agent and Content-Length is sent with exactly the message's values, in order. */
  lemma MessageHeadersCopied(config: Configuration, lib: Library, op: UpnpRequest, major: int, minor: int,
                             es: seq<Entry>, body: Body, k: string)
    requires BuildRequest(config, lib, op, major, minor, es, body).Success?
    requires k != Key(USER_AGENT) && k != Key(CONTENT_LENGTH)
    ensures Select(BuildRequest(config, lib, op, major, minor, es, body).value.headers, k) == ValuesOf(es, k)
  {
    var ua := UserAgentLines(es, config.userAgentValue(major, minor));
    var lines := HeaderLines(es, config.userAgentValue(major, minor));
    var req := BuildRequest(config, lib, op, major, minor, es, body).value;
    HeadersShape(config, lib, op, major, minor, es, body);
    SelectAppend(lines, req.headers[|lines|..], k);
    TailSelect(req.headers[|lines|..], k);
    SelectAppend(ua, Flatten(es), k);
    SelectFlatten(es, k);
    assert Select(ua, k) == [] by {
      if ua != [] {
        assert ua[1..] == [];
      }
    }
  }

  /** The message's method is applied exactly when it has a body; a bodiless message keeps the builder's default. */
  lemma MethodSetOnlyWithBody(config: Configuration, lib: Library, op: UpnpRequest, major: int, minor: int,
                              es: seq<Entry>, body: Body)
    requires BuildRequest(config, lib, op, major, minor, es, body).Success?
    ensures var req := BuildRequest(config, lib, op, major, minor, es, body).value;
            && (req.methodCall.Some? <==> body != NoBody)
            && (req.methodCall.Some? ==> req.methodCall.value.name == op.httpMethod && req.methodCall.value.body.Some?)
            && (body == NoBody ==> req.headers == HeaderLines(es, config.userAgentValue(major, minor)))
  {
  }

  /**
   * A string body is encoded with the content type's charset, else UTF-8,
   * and sent with a Content-Length denoting the encoded length; its media
   * type is the message's content type, or none (there is no default).
   */
  lemma StringBodyEncoded(config: Configuration, lib: Library, op: UpnpRequest, major: int, minor: int,
                          es: seq<Entry>, text: string)
    ensures var charset := ContentTypeCharset(es, lib).GetOr(UTF_8);
            var r := BuildRequest(config, lib, op, major, minor, es, StringBody(text));
            && (lib.encode(text, charset).None? ==> r == Failure(UnsupportedCharset))
            && (lib.encode(text, charset).Some? ==>
                  var bytes := lib.encode(text, charset).value;
                  && r.Success?
                  && r.value.methodCall == Some(MethodCall(op.httpMethod, Some(RequestBody(bytes, ContentTypeOf(es)))))
                  && (ContentTypeOf(es).None? ==> r.value.methodCall.value.body.value.mediaType.None?)
                  && Select(r.value.headers, Key(CONTENT_LENGTH)) == ValuesOf(es, Key(CONTENT_LENGTH)) + [Decimal(|bytes|)]
                  && ParseDecimal(Decimal(|bytes|)) == |bytes|)
  {
    var charset := ContentTypeCharset(es, lib).GetOr(UTF_8);
    if lib.encode(text, charset).Some? {
      var bytes := lib.encode(text, charset).value;
      ContentLengthLine(es, config.userAgentValue(major, minor), Decimal(|bytes|));
      DecimalRoundTrip(|bytes|);
    }
  }

  /** A binary body is sent as it is, with its content type (if any) and a Content-Length denoting its length. */
  lemma BinaryBodySentUnchanged(config: Configuration, lib: Library, op: UpnpRequest, major: int, minor: int,
                                es: seq<Entry>, bytes: seq<byte>)
    ensures var r := BuildRequest(config, lib, op, major, minor, es, BytesBody(bytes));
            && BodyBytes(BytesBody(bytes)).Some?
            && r.Success?
            && r.value.methodCall == Some(MethodCall(op.httpMethod, Some(RequestBody(bytes, ContentTypeOf(es)))))
            && Select(r.value.headers, Key(CONTENT_LENGTH)) == ValuesOf(es, Key(CONTENT_LENGTH)) + [Decimal(|bytes|)]
            && ParseDecimal(Decimal(|bytes|)) == |bytes|
  {
    ContentLengthLine(es, config.userAgentValue(major, minor), Decimal(|bytes|));
    DecimalRoundTrip(|bytes|);
  }

  /** The one Content-Length value addBody appends follows the message's own Content-Length values. */
  lemma ContentLengthLine(es: seq<Entry>, userAgent: string, length: string)
    ensures Select(HeaderLines(es, userAgent) + [(CONTENT_LENGTH, length)], Key(CONTENT_LENGTH))
            == ValuesOf(es, Key(CONTENT_LENGTH)) + [length]
  {
    var k := Key(CONTENT_LENGTH);
    var ua := UserAgentLines(es, userAgent);
    assert k != Key(USER_AGENT);
    assert Select([(CONTENT_LENGTH, length)], k) == [length];
    SelectAppend(ua + Flatten(es), [(CONTENT_LENGTH, length)], k);
    SelectAppend(ua, Flatten(es), k);
    SelectFlatten(es, k);
  }

  /** A status code with no message in the status table gives null. */
  lemma UnknownStatusGivesNull(resp: Response, lib: Library)
    requires lib.statusMessage(resp.code).None?
    ensures ParsedResponse(resp, lib).None?
  {
  }

  /** The response message carries the code with its status-table message, and holds, name by name, every response header value in order, one add per pair. */
  lemma ResponseHeadersCopied(resp: Response, lib: Library, k: string)
    requires ParsedResponse(resp, lib).Some?
    ensures WellFormed(ParsedResponse(resp, lib).value.headers)
    ensures ValuesOf(ParsedResponse(resp, lib).value.headers, k) == Select(resp.headers, k)
    ensures ParsedResponse(resp, lib).value.operation == UpnpResponse(resp.code, lib.statusMessage(resp.code).value)
  {
    AddedAllWellFormed([], resp.headers);
    ValuesOfAddedAll([], resp.headers, k);
  }

  /**
   * The response body: none when absent or empty; otherwise text exactly when
   * the response has a Content-Type (null when its charset is unsupported),
   * else the bytes unchanged.
   */
  lemma ResponseBodyTextIffContentType(resp: Response, lib: Library)
    requires lib.statusMessage(resp.code).Some?
    requires resp.body != UnreadableBody
    ensures var p := ParsedResponse(resp, lib);
            var hasContentType := Select(resp.headers, Key(CONTENT_TYPE)) != [];
            var es := AddedAll([], resp.headers);
            && (resp.body == NoResponseBody || resp.body.bytes == [] ==> p.Some? && p.value.body == NoBody)
            && (resp.body.ResponseBytes? && resp.body.bytes != [] && hasContentType ==>
                  (p.Some? <==> BodyCharacters(es, resp.body.bytes, lib).Some?)
                  && (p.Some? ==> p.value.body == StringBody(BodyCharacters(es, resp.body.bytes, lib).value)))
            && (resp.body.ResponseBytes? && resp.body.bytes != [] && !hasContentType ==>
                  p.Some? && p.value.body == BytesBody(resp.body.bytes))
  {
  }

  /** An exception from execute gives null. */
  lemma ExecuteFailureGivesNull(engine: Engine, config: Configuration, lib: Library, op: UpnpRequest, major: int, minor: int,
                                es: seq<Entry>, body: Body)
    requires BuildRequest(config, lib, op, major, minor, es, body).Success?
    requires engine.execute(BuildRequest(config, lib, op, major, minor, es, body).value).None?
    ensures SendSpec(engine, config, lib, op, major, minor, es, body) == Null
  {
  }

  class OkHttpStreamClient {
    const client: Engine
    const configuration: Configuration

    constructor (client: Engine, configuration: Configuration)
      ensures this.client == client && this.configuration == configuration
    {
      this.client := client;
      this.configuration := configuration;
    }

    /** stop is a no-op. */
    method Stop()
      ensures unchanged(this)
    {
    }

    /** addHeaders: the User-Agent rule, then one addHeader per value of every name. */
    method AddHeaders(builder: Builder, message: StreamRequestMessage) returns (b: Builder)
      ensures b == builder.(headers := builder.headers
                                       + HeaderLines(message.headers.entries,
                                                     configuration.userAgentValue(message.udaMajorVersion, message.udaMinorVersion)))
    {
      var headers := message.headers;
      var lines := builder.headers;
      if !headers.ContainsKey(USER_AGENT) {
        lines := lines + [(USER_AGENT, configuration.userAgentValue(message.udaMajorVersion, message.udaMinorVersion))];
      }
      lines := AppendHeaderLines(lines, headers.entries);
      assert lines == builder.headers + HeaderLines(headers.entries,
                                                    configuration.userAgentValue(message.udaMajorVersion, message.udaMinorVersion));
      b := builder.(headers := lines);
    }

    /** addBody: for a message with a body, a Content-Length line and the method with the encoded body. */
    method AddBody(builder: Builder, message: StreamRequestMessage, lib: Library) returns (r: Result<Builder, RequestError>)
      ensures r == WithBody(builder, message.headers.entries, message.operation, message.body, lib)
    {
      var b := builder;
      if message.body != NoBody {
        var es := message.headers.entries;
        var contentType := ContentTypeOf(es);
        if message.body.StringBody? {
          var charset := ContentTypeCharset(es, lib);
          var encoded := lib.encode(message.body.text, if charset.Some? then charset.value else UTF_8);
          if encoded.None? {
            return Failure(UnsupportedCharset);
          }
          var requestBody := RequestBody(encoded.value, contentType);
          b := b.(headers := b.headers + [(CONTENT_LENGTH, Decimal(|requestBody.bytes|))]);
          b := b.(methodCall := Some(MethodCall(message.operation.httpMethod, Some(requestBody))));
        } else {
          var requestBody := match BodyBytes(message.body)
                             case Some(bytes) => Some(RequestBody(bytes, contentType))
                             case None => None;
          if requestBody.Some? {
            b := b.(headers := b.headers + [(CONTENT_LENGTH, Decimal(|requestBody.value.bytes|))]);
          }
          b := b.(methodCall := Some(MethodCall(message.operation.httpMethod, requestBody)));
        }
      }
      return Success(b);
    }

    /** parseResponse: null for an unknown status or an exception; otherwise a fresh message with the response's headers and body. */
    method ParseResponse(response: Response, lib: Library) returns (r: StreamResponseMessage?)
      ensures var p := ParsedResponse(response, lib);
              && (r == null <==> p.None?)
              && (r != null ==> fresh(r) && fresh(r.headers) && r.headers.Valid()
                                && r.operation == p.value.operation
                                && r.headers.entries == p.value.headers
                                && r.body == p.value.body)
    {
      var status := lib.statusMessage(response.code);
      if status.None? {
        return null;
      }
      var responseMessage := new StreamResponseMessage(UpnpResponse(response.code, status.value));
      var upnpHeaders := new UpnpHeaders();
      var i := 0;
      while i < |response.headers|
        invariant 0 <= i <= |response.headers|
        invariant upnpHeaders.Valid()
        invariant upnpHeaders.entries == AddedAll([], response.headers[..i])
        invariant responseMessage.operation == UpnpResponse(response.code, status.value)
        invariant responseMessage.body == NoBody
      {
        assert response.headers[..i + 1] == response.headers[..i] + [response.headers[i]];
        AddedAllSnoc([], response.headers[..i], response.headers[i]);
        upnpHeaders.Add(response.headers[i].0, response.headers[i].1);
        i := i + 1;
      }
      assert response.headers[..i] == response.headers;
      responseMessage.SetHeaders(upnpHeaders);

      match response.body {
        case NoResponseBody =>
        case UnreadableBody =>
          return null;
        case ResponseBytes(bytes) =>
          if |bytes| > 0 {
            var contentType := LastValue(response.headers, Key(CONTENT_TYPE));
            var isText := contentType == Some(DEFAULT_CONTENT_TYPE_TYPE);
            if contentType.Some? || isText {
              var ok := responseMessage.SetBodyCharacters(bytes, lib);
              if !ok {
                return null;
              }
            } else {
              responseMessage.SetBody(BytesBody(bytes));
            }
          }
      }
      return responseMessage;
    }

    method SendRequest(message: StreamRequestMessage, lib: Library) returns (r: Outcome)
      ensures var a := SendSpec(client, configuration, lib, message.operation, message.udaMajorVersion,
                                message.udaMinorVersion, message.headers.entries, message.body);
              && (a.Thrown? ==> r == Raised(a.error))
              && (a.Null? ==> r == ReturnedNull)
              && (a.Message? ==> r.Returned? && fresh(r.message) && fresh(r.message.headers)
                                  && r.message.operation == a.parsed.operation
                                  && r.message.headers.entries == a.parsed.headers
                                  && r.message.body == a.parsed.body)
    {
      var builder := Builder(message.operation.uri, None, []);
      builder := AddHeaders(builder, message);
      assert builder == Builder(message.operation.uri, None,
                                HeaderLines(message.headers.entries,
                                            configuration.userAgentValue(message.udaMajorVersion, message.udaMinorVersion)));
      var request := AddBody(builder, message, lib);
      if request.Failure? {
        return Raised(request.error);
      }
      var response := client.execute(request.value);
      if response.None? {
        return ReturnedNull;
      }
      var responseMessage := ParseResponse(response.value, lib);
      if responseMessage == null {
        return ReturnedNull;
      }
      return Returned(responseMessage);
    }
  }
}
