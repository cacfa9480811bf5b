/**
 * JettyStreamClientImpl: translates a UPnP stream request into a Jetty HTTP
 * request, sends it through the engine, and translates the engine's response
 * back. The engine is an oracle: given the built request it returns a
 * response, or None for any exception send throws.
 */
module JettyClient {
  import opened Wrappers
  import opened JavaLang
  import opened Headers
  import opened Messages

  /** The body attached with request.content: its bytes and its content type. */
  datatype ContentProvider = ContentProvider(bytes: seq<byte>, contentType: string)

  /** What the Jetty request builder holds when send is called. */
  datatype Request = Request(uri: string, httpMethod: string, headers: seq<Pair>, content: Option<ContentProvider>)

  /** A Jetty ContentResponse: status, header fields (one per name, with its values), and the content or null. */
  datatype ContentResponse = ContentResponse(status: int, fields: seq<Entry>, content: Option<seq<byte>>)

  /** The HTTP engine: whether start succeeds, and what send answers (None: send threw). */
  datatype Engine = Engine(startSucceeds: bool, stopSucceeds: bool, send: Request -> Option<ContentResponse>)

  datatype InitializationException = InitializationException

  /** What sendRequest does, as a value: throws, returns null, or returns a response with this operation and body. */
  datatype Answer = Thrown(error: RequestError) | Null | Response(operation: UpnpResponse, body: Body)

  /** The answer, and the request message's header entries once sendRequest has returned. */
  datatype Exchange = Exchange(answer: Answer, requestHeaders: seq<Entry>)

  /** sendRequest's result; a returned message is an object. */
  datatype Outcome = Raised(error: RequestError) | ReturnedNull | Returned(message: StreamResponseMessage)

  /** The timeout set on the engine: (timeoutSeconds + 5) * 1000 in Java int arithmetic. */
  function EngineTimeout(timeoutSeconds: int32): (r: int32)
    ensures -5 <= timeoutSeconds <= 2147478 ==> r == (timeoutSeconds + 5) * 1000
  {
    Wrap32(Wrap32(timeoutSeconds + 5) * 1000)
  }

  /** For every timeout up to 2147478 s the engine timeout is exact: five seconds beyond the configured one. */
  lemma EngineTimeoutExact(timeoutSeconds: int32)
    requires -5 <= timeoutSeconds <= 2147478
    ensures EngineTimeout(timeoutSeconds) == timeoutSeconds * 1000 + 5000
  {
  }

  /** Above that the int multiplication wraps and the engine timeout turns negative. */
  lemma EngineTimeoutWraps()
    ensures EngineTimeout(2147479) < 0
  {
    assert Wrap32(2147479 + 5) == 2147484;
    assert 2147484 * 1000 == 2147484000;
  }

  /** The buffer ByteBuffer.allocate(n) hands out: n zero bytes. */
  function Zeros(n: nat): (z: seq<byte>)
    ensures |z| == n && forall i :: 0 <= i < n ==> z[i] == 0
  {
    seq(n, _ => 0)
  }

  /** The lines and content the body branch adds, or the exception it throws. */
  function BodyLines(es: seq<Entry>, body: Body, lib: Library): (r: Result<(seq<Pair>, Option<ContentProvider>), RequestError>)
    ensures body == NoBody ==> r == Success(([], None))
    ensures r.Failure? <==> || (body.BytesBody? && ContentTypeOf(es).None?)
                            || (body.StringBody? && lib.encode(body.text, ContentTypeCharset(es, lib).GetOr(UTF_8)).None?)
    ensures r.Failure? ==> r.error == (if body.BytesBody? then MissingContentType else UnsupportedCharset)
    ensures r.Success? && body != NoBody ==>
              && r.value.1.Some?
              && r.value.0 == [("content-type", r.value.1.value.contentType),
                               ("content-length", Decimal(|r.value.1.value.bytes|))]
  {
    match body
    case NoBody => Success(([], None))
    case StringBody(text) =>
      var contentType := ContentTypeOf(es).GetOr(DEFAULT_CONTENT_TYPE_UTF8);
      var charset := ContentTypeCharset(es, lib).GetOr(UTF_8);
      (match lib.encode(text, charset)
       case None => Failure(UnsupportedCharset)
       case Some(bytes) =>
         Success(([("content-type", contentType), ("content-length", Decimal(|bytes|))],
                  Some(ContentProvider(bytes, contentType)))))
    case BytesBody(bytes) =>
      match ContentTypeOf(es)
      case None => Failure(MissingContentType)
      case Some(contentType) =>
        var buffer := Zeros(|bytes|);
        Success(([("content-type", contentType), ("content-length", Decimal(|buffer|))],
                 Some(ContentProvider(buffer, contentType))))
  }

  /** The request sendRequest builds for a message, or the exception it throws while building. */
  function BuildRequest(config: Configuration, lib: Library, op: UpnpRequest, major: int, minor: int,
                        es: seq<Entry>, body: Body): (r: Result<Request, RequestError>)
    ensures r.Success? <==> BodyLines(es, body, lib).Success?
    ensures r.Success? ==> && r.value.uri == op.uri && r.value.httpMethod == op.httpMethod
                           && r.value.content == BodyLines(es, body, lib).value.1
                           && |r.value.headers| == |UserAgentLines(es, config.userAgentValue(major, minor))| + |Flatten(es)|
                                                   + |BodyLines(es, body, lib).value.0|
  {
    match BodyLines(es, body, lib)
    case Failure(e) => Failure(e)
    case Success(b) =>
      Success(Request(op.uri, op.httpMethod,
                      UserAgentLines(es, config.userAgentValue(major, minor)) + Flatten(es) + b.0, b.1))
  }

  /** What the try block makes of the engine's answer, and what it leaves in the request's header collection. */
  function ConvertResponse(response: Option<ContentResponse>, es: seq<Entry>, lib: Library): (x: Exchange)
    ensures !x.answer.Thrown?
    ensures response.None? || lib.statusMessage(response.value.status).None? ==> x.requestHeaders == es
    ensures response.Some? && lib.statusMessage(response.value.status).Some? ==>
              x.requestHeaders == AddedAll(es, Flatten(response.value.fields))
    ensures x.answer.Response? ==> && response.Some? && lib.statusMessage(response.value.status).Some?
                                   && x.answer.operation == UpnpResponse(response.value.status, lib.statusMessage(response.value.status).value)
  {
    match response
    case None => Exchange(Null, es)
    case Some(resp) =>
      match lib.statusMessage(resp.status)
      case None => Exchange(Null, es)
      case Some(msg) =>
        var op := UpnpResponse(resp.status, msg);
        var es' := AddedAll(es, Flatten(resp.fields));
        if resp.content.Some? && |resp.content.value| > 0 && ContentTypeMissingOrText(es', lib) then
          (match BodyCharacters(es', resp.content.value, lib)
           case None => Exchange(Null, es')
           case Some(text) => Exchange(Response(op, StringBody(text)), es'))
        else if resp.content.Some? && |resp.content.value| > 0 then
          Exchange(Response(op, BytesBody(resp.content.value)), es')
        else
          Exchange(Response(op, NoBody), es')
  }

  /** The whole of sendRequest on values. */
  function SendSpec(engine: Engine, config: Configuration, lib: Library, op: UpnpRequest, major: int, minor: int,
                    es: seq<Entry>, body: Body): (x: Exchange)
    ensures x.answer.Thrown? <==> BuildRequest(config, lib, op, major, minor, es, body).Failure?
    ensures x.answer.Thrown? ==> x.requestHeaders == es && x.answer.error == BuildRequest(config, lib, op, major, minor, es, body).error
  {
    match BuildRequest(config, lib, op, major, minor, es, body)
    case Failure(e) => Exchange(Thrown(e), es)
    case Success(request) => ConvertResponse(engine.send(request), es, lib)
  }

  /** The two lines a body adds carry neither User-Agent nor any name other than content-type and content-length. */
  lemma SelectBodyLines(ct: string, len: string, k: string)
    ensures Select([("content-type", ct), ("content-length", len)], k)
         == (if k == Key(CONTENT_TYPE) then [ct] else []) + (if k == Key(CONTENT_LENGTH) then [len] else [])
  {
    LowerCaseSpellings();
    var ls := [("content-type", ct), ("content-length", len)];
    assert ls[1..][1..] == [];
    assert Select(ls[1..], k) == (if k == Key(CONTENT_LENGTH) then [len] else []) + Select(ls[1..][1..], k);
    assert Select(ls, k) == (if k == Key(CONTENT_TYPE) then [ct] else []) + Select(ls[1..], k);
  }

  /** The sent headers are the User-Agent rule's lines, then the message's, then the body's, name by name. */
  lemma SelectRequestHeaders(config: Configuration, lib: Library, op: UpnpRequest, major: int, minor: int,
                             es: seq<Entry>, body: Body, k: string)
    requires BuildRequest(config, lib, op, major, minor, es, body).Success?
    ensures var req := BuildRequest(config, lib, op, major, minor, es, body).value;
            var b := BodyLines(es, body, lib).value;
            Select(req.headers, k) == Select(UserAgentLines(es, config.userAgentValue(major, minor)), k)
                                      + ValuesOf(es, k) + Select(b.0, k)
  {
    var ua := UserAgentLines(es, config.userAgentValue(major, minor));
    var b := BodyLines(es, body, lib).value;
    SelectAppend(ua + Flatten(es), b.0, k);
    SelectAppend(ua, Flatten(es), k);
    SelectFlatten(es, k);
  }

  /**
   * User-Agent: a message without one is sent with exactly the configured
   * value, as the first line; a message with one is sent with its own values
   * and nothing injected.
   */
  lemma UserAgentInjectedOnlyWhenMissing(config: Configuration, lib: Library, op: UpnpRequest, major: int, minor: int,
                                         es: seq<Entry>, body: Body)
    requires BuildRequest(config, lib, op, major, minor, es, body).Success?
    ensures var req := BuildRequest(config, lib, op, major, minor, es, body).value;
            && Select(req.headers, Key(USER_AGENT))
               == (if HasKey(es, Key(USER_AGENT)) then ValuesOf(es, Key(USER_AGENT)) else [config.userAgentValue(major, minor)])
            && (!HasKey(es, Key(USER_AGENT)) ==> req.headers[0] == (USER_AGENT, config.userAgentValue(major, minor)))
  {
    var k := Key(USER_AGENT);
    SelectRequestHeaders(config, lib, op, major, minor, es, body, k);
    UserAgentRule(es, config.userAgentValue(major, minor));
    SelectAppend(UserAgentLines(es, config.userAgentValue(major, minor)), Flatten(es), k);
    SelectFlatten(es, k);
    var b := BodyLines(es, body, lib).value;
    if body != NoBody {
      SelectBodyLines(b.0[0].1, b.0[1].1, k);
      assert b.0 == [("content-type", b.0[0].1), ("content-length", b.0[1].1)];
    }
  }

  /** Every other name is sent with exactly the message's values, in order, duplicates included. */
  lemma MessageHeadersCopied(config: Configuration, lib: Library, op: UpnpRequest, major: int, minor: int,
                             es: seq<Entry>, body: Body, k: string)
    requires BuildRequest(config, lib, op, major, minor, es, body).Success?
    requires k != Key(USER_AGENT) && k != Key(CONTENT_TYPE) && k != Key(CONTENT_LENGTH)
    ensures Select(BuildRequest(config, lib, op, major, minor, es, body).value.headers, k) == ValuesOf(es, k)
  {
    SelectRequestHeaders(config, lib, op, major, minor, es, body, k);
    var b := BodyLines(es, body, lib).value;
    if body != NoBody {
      SelectBodyLines(b.0[0].1, b.0[1].1, k);
      assert b.0 == [("content-type", b.0[0].1), ("content-length", b.0[1].1)];
    }
  }

  /** A message without a body is sent without content and without any content-type or content-length line of its own. */
  lemma NoBodyAddsNoContentHeaders(config: Configuration, lib: Library, op: UpnpRequest, major: int, minor: int,
                                   es: seq<Entry>)
    ensures BuildRequest(config, lib, op, major, minor, es, NoBody).Success?
    ensures var req := BuildRequest(config, lib, op, major, minor, es, NoBody).value;
            && req.content.None?
            && Select(req.headers, Key(CONTENT_TYPE)) == ValuesOf(es, Key(CONTENT_TYPE))
            && Select(req.headers, Key(CONTENT_LENGTH)) == ValuesOf(es, Key(CONTENT_LENGTH))
  {
    SelectRequestHeaders(config, lib, op, major, minor, es, NoBody, Key(CONTENT_TYPE));
    SelectRequestHeaders(config, lib, op, major, minor, es, NoBody, Key(CONTENT_LENGTH));
    assert Key(CONTENT_TYPE) != Key(USER_AGENT) && Key(CONTENT_LENGTH) != Key(USER_AGENT);
  }

  /**
   * A string body is encoded with the message's charset, else UTF-8; it is
   * sent with one more content-type line (the message's content type, else
   * the UTF-8 XML default) and a content-length line that denotes the encoded
   * length. An unsupported charset throws before anything is sent.
   */
  lemma StringBodyEncoded(config: Configuration, lib: Library, op: UpnpRequest, major: int, minor: int,
                          es: seq<Entry>, text: string)
    ensures var contentType := ContentTypeOf(es).GetOr(DEFAULT_CONTENT_TYPE_UTF8);
            var charset := ContentTypeCharset(es, lib).GetOr(UTF_8);
            var r := BuildRequest(config, lib, op, major, minor, es, StringBody(text));
            && (lib.encode(text, charset).None? ==> r == Failure(UnsupportedCharset))
            && (lib.encode(text, charset).Some? ==>
                  var bytes := lib.encode(text, charset).value;
                  && r.Success?
                  && r.value.content == Some(ContentProvider(bytes, contentType))
                  && Select(r.value.headers, Key(CONTENT_TYPE)) == ValuesOf(es, Key(CONTENT_TYPE)) + [contentType]
                  && Select(r.value.headers, Key(CONTENT_LENGTH)) == ValuesOf(es, Key(CONTENT_LENGTH)) + [Decimal(|bytes|)]
                  && ParseDecimal(Decimal(|bytes|)) == |bytes|)
  {
    var charset := ContentTypeCharset(es, lib).GetOr(UTF_8);
    var r := BuildRequest(config, lib, op, major, minor, es, StringBody(text));
    if r.Success? {
      var b := BodyLines(es, StringBody(text), lib).value;
      SelectRequestHeaders(config, lib, op, major, minor, es, StringBody(text), Key(CONTENT_TYPE));
      SelectRequestHeaders(config, lib, op, major, minor, es, StringBody(text), Key(CONTENT_LENGTH));
      SelectBodyLines(b.0[0].1, b.0[1].1, Key(CONTENT_TYPE));
      SelectBodyLines(b.0[0].1, b.0[1].1, Key(CONTENT_LENGTH));
      assert Key(CONTENT_TYPE) != Key(USER_AGENT) && Key(CONTENT_LENGTH) != Key(USER_AGENT);
      assert Key(CONTENT_TYPE) != Key(CONTENT_LENGTH);
      DecimalRoundTrip(|lib.encode(text, charset).value|);
    }
  }

  /** A binary body on a message without Content-Type throws, whatever the engine would have answered: nothing is sent. */
  lemma BinaryBodyWithoutContentTypeThrows(engine: Engine, config: Configuration, lib: Library, op: UpnpRequest,
                                           major: int, minor: int, es: seq<Entry>, bytes: seq<byte>)
    requires ContentTypeOf(es).None?
    ensures SendSpec(engine, config, lib, op, major, minor, es, BytesBody(bytes)) == Exchange(Thrown(MissingContentType), es)
  {
  }

  /** Lines built as the User-Agent rule's line, the message's lines and a body's two lines carry, under content-type and content-length, the message's values and then the body's one. */
  lemma BodyContentHeaders(es: seq<Entry>, userAgent: string, ct: string, len: string)
    ensures var lines := UserAgentLines(es, userAgent) + Flatten(es) + [("content-type", ct), ("content-length", len)];
            && Select(lines, Key(CONTENT_TYPE)) == ValuesOf(es, Key(CONTENT_TYPE)) + [ct]
            && Select(lines, Key(CONTENT_LENGTH)) == ValuesOf(es, Key(CONTENT_LENGTH)) + [len]
  {
    var ua := UserAgentLines(es, userAgent);
    var body := [("content-type", ct), ("content-length", len)];
    assert Key(CONTENT_TYPE) != Key(USER_AGENT) && Key(CONTENT_LENGTH) != Key(USER_AGENT);
    assert Key(CONTENT_TYPE) != Key(CONTENT_LENGTH);
    forall k | k == Key(CONTENT_TYPE) || k == Key(CONTENT_LENGTH)
      ensures Select(ua + Flatten(es) + body, k) == ValuesOf(es, k) + Select(body, k)
    {
      SelectAppend(ua + Flatten(es), body, k);
      SelectAppend(ua, Flatten(es), k);
      SelectFlatten(es, k);
      if ua != [] {
        assert ua[1..] == [];
      }
    }
    SelectBodyLines(ct, len, Key(CONTENT_TYPE));
    SelectBodyLines(ct, len, Key(CONTENT_LENGTH));
  }

  /**
   * A binary body with a content type is sent with a content-length that
   * denotes the body's length and one more content-type line, but the content
   * is the zero-filled buffer of that length: it equals the message's bytes
   * only when those are all zero.
   */
  lemma BinaryBodySentZeroFilled(config: Configuration, lib: Library, op: UpnpRequest, major: int, minor: int,
                                 es: seq<Entry>, bytes: seq<byte>)
    requires ContentTypeOf(es).Some?
    ensures var r := BuildRequest(config, lib, op, major, minor, es, BytesBody(bytes));
            && r.Success?
            && r.value.content.Some?
            && r.value.content.value.contentType == ContentTypeOf(es).value
            && r.value.content.value.bytes == Zeros(|bytes|)
            && (r.value.content.value.bytes == bytes <==> forall i :: 0 <= i < |bytes| ==> bytes[i] == 0)
            && Select(r.value.headers, Key(CONTENT_TYPE)) == ValuesOf(es, Key(CONTENT_TYPE)) + [ContentTypeOf(es).value]
            && Select(r.value.headers, Key(CONTENT_LENGTH)) == ValuesOf(es, Key(CONTENT_LENGTH)) + [Decimal(|bytes|)]
            && ParseDecimal(Decimal(|bytes|)) == |bytes|
  {
    var ct := ContentTypeOf(es).value;
    var ua := config.userAgentValue(major, minor);
    var r := BuildRequest(config, lib, op, major, minor, es, BytesBody(bytes));
    assert BodyLines(es, BytesBody(bytes), lib)
        == Success(([("content-type", ct), ("content-length", Decimal(|bytes|))], Some(ContentProvider(Zeros(|bytes|), ct))));
    assert r.value.headers == UserAgentLines(es, ua) + Flatten(es) + [("content-type", ct), ("content-length", Decimal(|bytes|))];
    BodyContentHeaders(es, ua, ct, Decimal(|bytes|));
    DecimalRoundTrip(|bytes|);
    if forall i :: 0 <= i < |bytes| ==> bytes[i] == 0 {
      assert Zeros(|bytes|) == bytes;
    }
  }

  /** A send that throws, or a status missing from the table, gives null and leaves the request's headers as they were. */
  lemma FailuresGiveNull(response: Option<ContentResponse>, es: seq<Entry>, lib: Library)
    requires response.None? || lib.statusMessage(response.value.status).None?
    ensures ConvertResponse(response, es, lib) == Exchange(Null, es)
  {
  }

  /**
   * With a known status, every response field is appended, name by name and
   * in order, to the REQUEST message's header collection; that collection is
   * the one the returned message carries.
   */
  lemma ResponseHeadersJoinRequestHeaders(resp: ContentResponse, es: seq<Entry>, lib: Library, k: string)
    requires WellFormed(es)
    requires lib.statusMessage(resp.status).Some?
    ensures var x := ConvertResponse(Some(resp), es, lib);
            && WellFormed(x.requestHeaders)
            && ValuesOf(x.requestHeaders, k) == ValuesOf(es, k) + ValuesOf(resp.fields, k)
  {
    AddedAllWellFormed(es, Flatten(resp.fields));
    ValuesOfAddedAll(es, Flatten(resp.fields), k);
    SelectFlatten(resp.fields, k);
  }

  /**
   * Because of that, when the request carried a Content-Type, the response
   * body is classified and decoded by the request's content type, whatever
   * the response declared.
   */
  lemma ResponseJudgedByRequestContentType(resp: ContentResponse, es: seq<Entry>, lib: Library)
    requires WellFormed(es)
    requires lib.statusMessage(resp.status).Some?
    requires ContentTypeOf(es).Some?
    ensures ContentTypeOf(ConvertResponse(Some(resp), es, lib).requestHeaders) == ContentTypeOf(es)
  {
    ResponseHeadersJoinRequestHeaders(resp, es, lib, Key(CONTENT_TYPE));
  }

  /**
   * The body of the returned message: none for absent or empty content; the
   * decoded text when the content type the message ends up with is missing or
   * textual (null when that charset is unsupported); otherwise the bytes
   * unchanged.
   */
  lemma ResponseBodyClassified(resp: ContentResponse, es: seq<Entry>, lib: Library)
    requires lib.statusMessage(resp.status).Some?
    ensures var x := ConvertResponse(Some(resp), es, lib);
            var op := UpnpResponse(resp.status, lib.statusMessage(resp.status).value);
            var es' := AddedAll(es, Flatten(resp.fields));
            && x.requestHeaders == es'
            && (resp.content.None? || resp.content.value == [] ==> x.answer == Response(op, NoBody))
            && (resp.content.Some? && resp.content.value != [] && ContentTypeMissingOrText(es', lib) ==>
                  x.answer == (if BodyCharacters(es', resp.content.value, lib).Some?
                               then Response(op, StringBody(BodyCharacters(es', resp.content.value, lib).value))
                               else Null))
            && (resp.content.Some? && resp.content.value != [] && !ContentTypeMissingOrText(es', lib) ==>
                  x.answer == Response(op, BytesBody(resp.content.value)))
  {
  }

  class JettyStreamClientImpl {
    const configuration: Configuration
    const engine: Engine
    var stopTimeout: int32
    var idleTimeout: int32
    var addressResolutionTimeout: int32
    var connectTimeout: int32
    var running: bool

    /** The constructor up to starting the engine: every engine timeout is the configured one plus five seconds, in ms. */
    constructor Init(configuration: Configuration, engine: Engine)
      ensures this.configuration == configuration && this.engine == engine && !running
      ensures stopTimeout == EngineTimeout(configuration.timeoutSeconds)
      ensures idleTimeout == EngineTimeout(configuration.timeoutSeconds)
      ensures addressResolutionTimeout == EngineTimeout(configuration.timeoutSeconds)
      ensures connectTimeout == EngineTimeout(configuration.timeoutSeconds)
    {
      this.configuration := configuration;
      this.engine := engine;
      var timeout := Wrap32(Wrap32(configuration.timeoutSeconds + 5) * 1000);
      stopTimeout := timeout;
      idleTimeout := timeout;
      addressResolutionTimeout := timeout;
      connectTimeout := Wrap32(Wrap32(configuration.timeoutSeconds + 5) * 1000);
      running := false;
    }

    /** The Java constructor: a client whose engine started, or the InitializationException when start fails. */
    static method Create(configuration: Configuration, engine: Engine) returns (r: Result<JettyStreamClientImpl, InitializationException>)
      ensures r.Success? <==> engine.startSucceeds
      ensures r.Success? ==> fresh(r.value) && r.value.running
      ensures r.Success? ==> r.value.configuration == configuration && r.value.engine == engine
      ensures r.Success? ==> r.value.stopTimeout == r.value.idleTimeout == r.value.addressResolutionTimeout
                             == r.value.connectTimeout == EngineTimeout(configuration.timeoutSeconds)
    {
      var client := new JettyStreamClientImpl.Init(configuration, engine);
      if !engine.startSucceeds {
        return Failure(InitializationException);
      }
      client.running := true;
      return Success(client);
    }

    /** stop: an engine that fails to stop is logged, never reported. */
    method Stop()
      modifies this`running
      ensures running == (old(running) && !engine.stopSucceeds)
    {
      if engine.stopSucceeds {
        running := false;
      }
    }

    /** sendRequest up to the send (JettyStreamClientImpl.sendRequest up to request.send()): the built request, or the exception thrown while building it. */
    method NewRequest(message: StreamRequestMessage, lib: Library) returns (r: Result<Request, RequestError>)
      ensures r == BuildRequest(configuration, lib, message.operation, message.udaMajorVersion, message.udaMinorVersion,
                                message.headers.entries, message.body)
    {
      var op := message.operation;
      var headers := message.headers;

      // Headers: the default User-Agent when the message has none, then every value of every name.
      var lines: seq<Pair> := [];
      if !headers.ContainsKey(USER_AGENT) {
        lines := [(USER_AGENT, configuration.userAgentValue(message.udaMajorVersion, message.udaMinorVersion))];
      }
      lines := AppendHeaderLines(lines, headers.entries);
      ghost var copied := lines;

      // Body
      var content: Option<ContentProvider> := None;
      match message.body {
        case NoBody =>
          assert lines[|copied|..] == [];
        case StringBody(text) =>
          var contentType := if ContentTypeOf(headers.entries).Some? then ContentTypeOf(headers.entries).value
                             else DEFAULT_CONTENT_TYPE_UTF8;
          var charset := if ContentTypeCharset(headers.entries, lib).Some? then ContentTypeCharset(headers.entries, lib).value
                         else UTF_8;
          lines := lines + [("content-type", contentType)];
          var encoded := lib.encode(text, charset);
          if encoded.None? {
            return Failure(UnsupportedCharset);
          }
          lines := lines + [("content-length", Decimal(|encoded.value|))];
          content := Some(ContentProvider(encoded.value, contentType));
          assert lines[|copied|..] == [("content-type", contentType), ("content-length", Decimal(|encoded.value|))];
        case BytesBody(bytes) =>
          if ContentTypeOf(headers.entries).None? {
            return Failure(MissingContentType);
          }
          var contentType := ContentTypeOf(headers.entries).value;
          lines := lines + [("content-type", contentType)];
          // A fresh zero-filled buffer of the body's length; the body's bytes are never put into it.
          var buffer := new byte[|bytes|](_ => 0);
          assert buffer[..] == Zeros(|bytes|);
          lines := lines + [("content-length", Decimal(buffer.Length))];
          content := Some(ContentProvider(buffer[..], contentType));
          content := Some(ContentProvider(buffer[..], contentType));
          assert lines[|copied|..] == [("content-type", contentType), ("content-length", Decimal(|Zeros(|bytes|)|))];
      }
      assert lines == copied + lines[|copied|..];
      return Success(Request(op.uri, op.httpMethod, lines, content));
    }

    /** The nested loop over getFieldNamesCollection in JettyStreamClientImpl.sendRequest: one add per (name, value) of the response fields. */
    static method AddFields(headers: UpnpHeaders, fields: seq<Entry>)
      requires headers.Valid()
      modifies headers
      ensures headers.Valid()
      ensures headers.entries == AddedAll(old(headers.entries), Flatten(fields))
    {
      ghost var es := headers.entries;
      var i := 0;
      while i < |fields|
        invariant 0 <= i <= |fields|
        invariant headers.Valid()
        invariant headers.entries == AddedAll(es, Flatten(fields[..i]))
      {
        var name, values := fields[i].name, fields[i].values;
        var j := 0;
        assert Flatten(fields[..i]) + PairsOf(Entry(name, values[..j])) == Flatten(fields[..i]);
        while j < |values|
          invariant 0 <= j <= |values|
          invariant headers.Valid()
          invariant headers.entries == AddedAll(es, Flatten(fields[..i]) + PairsOf(Entry(name, values[..j])))
        {
          PairsOfSnoc(name, values, j);
          AddedAllSnoc(es, Flatten(fields[..i]) + PairsOf(Entry(name, values[..j])), (name, values[j]));
          assert Flatten(fields[..i]) + PairsOf(Entry(name, values[..j + 1]))
              == Flatten(fields[..i]) + PairsOf(Entry(name, values[..j])) + [(name, values[j])];
          headers.Add(name, values[j]);
          j := j + 1;
        }
        assert values[..j] == values;
        FlattenSnoc(fields, i);
        i := i + 1;
      }
      assert fields[..i] == fields;
    }

    method SendRequest(message: StreamRequestMessage, lib: Library) returns (r: Outcome)
      requires message.headers.Valid()
      modifies message.headers
      ensures message.headers.Valid()
      ensures var x := SendSpec(engine, configuration, lib, message.operation, message.udaMajorVersion,
                                message.udaMinorVersion, old(message.headers.entries), message.body);
              && message.headers.entries == x.requestHeaders
              && (x.answer.Thrown? ==> r == Raised(x.answer.error))
              && (x.answer.Null? ==> r == ReturnedNull)
              && (x.answer.Response? ==> r.Returned? && fresh(r.message)
                                         && r.message.headers == message.headers
                                         && r.message.operation == x.answer.operation
                                         && r.message.body == x.answer.body)
    {
      var request := NewRequest(message, lib);
      if request.Failure? {
        return Raised(request.error);
      }
      var headers := message.headers;

      var response := engine.send(request.value);
      if response.None? {
        return ReturnedNull;
      }
      var resp := response.value;
      var statusMessage := lib.statusMessage(resp.status);
      if statusMessage.None? {
        return ReturnedNull;
      }
      var responseMessage := new StreamResponseMessage(UpnpResponse(resp.status, statusMessage.value));

      // Headers: a new collection is made but left empty; the response's fields go into the request's collection.
      var upnpHeaders := new UpnpHeaders();
      AddFields(headers, resp.fields);
      responseMessage.SetHeaders(headers);

      // Body
      var bytes := resp.content;
      if bytes.Some? && |bytes.value| > 0 && ContentTypeMissingOrText(responseMessage.headers.entries, lib) {
        var ok := responseMessage.SetBodyCharacters(bytes.value, lib);
        if !ok {
          return ReturnedNull;
        }
      } else if bytes.Some? && |bytes.value| > 0 {
        responseMessage.SetBody(BytesBody(bytes.value));
      }
      return Returned(responseMessage);
    }
  }
}
