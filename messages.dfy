/**
 * The UPnP stream messages both clients translate: a request (operation,
 * header collection, optional body) and the response message they build.
 * Library behaviour the clients call but that is not part of this model
 * (charset encoding and decoding, the charset parameter and textual test of
 * a content type, the status-message table, the user-agent template) is
 * supplied as function values.
 */
module Messages {
  import opened Wrappers
  import opened JavaLang
  import opened Headers

  type byte = x: int | 0 <= x < 0x100

  /** A message body: none, a string, or bytes. */
  datatype Body = NoBody | StringBody(text: string) | BytesBody(bytes: seq<byte>)

  /** The request line: HTTP method and target URI (as rendered by toString). */
  datatype UpnpRequest = UpnpRequest(httpMethod: string, uri: string)

  /** The status line: code and the message from the status table. */
  datatype UpnpResponse = UpnpResponse(statusCode: int, statusMessage: string)

  /** Library behaviour the translation depends on. A None result stands for the exception the library throws. */
  datatype Library = Library(
    encode: (string, string) -> Option<seq<byte>>,  // String.getBytes(charset)
    decode: (seq<byte>, string) -> Option<string>,  // new String(bytes, charset)
    charsetOf: string -> Option<string>,            // the charset parameter of a content type
    isText: string -> bool,                         // the content type is a textual media type
    statusMessage: int -> Option<string>)           // UpnpResponse.Status.getByStatusCode(code).getStatusMsg()

  /** The client configuration: timeout and the user-agent template. */
  datatype Configuration = Configuration(timeoutSeconds: int32, userAgentValue: (int, int) -> string)

  /** The exceptions request building throws before anything is sent. */
  datatype RequestError = MissingContentType | UnsupportedCharset

  const UTF_8 := "UTF-8"
  /** The text ContentTypeHeader.DEFAULT_CONTENT_TYPE_UTF8 is taken to render as. */
  const DEFAULT_CONTENT_TYPE_UTF8 := "text/xml; charset=\"utf-8\""

  /** getContentTypeHeader: the message's first Content-Type value, or null. */
  function ContentTypeOf(es: seq<Entry>): Option<string> {
    FirstValue(es, CONTENT_TYPE)
  }

  /** getContentTypeCharset: the charset parameter of the message's content type, or null. */
  function ContentTypeCharset(es: seq<Entry>, lib: Library): Option<string> {
    match ContentTypeOf(es)
    case None => None
    case Some(ct) => lib.charsetOf(ct)
  }

  /** isContentTypeMissingOrText. */
  predicate ContentTypeMissingOrText(es: seq<Entry>, lib: Library) {
    ContentTypeOf(es).None? || lib.isText(ContentTypeOf(es).value)
  }

  /** setBodyCharacters: the bytes decoded with the message's charset, else UTF-8; None when the charset is unsupported. */
  function BodyCharacters(es: seq<Entry>, bytes: seq<byte>, lib: Library): Option<string> {
    lib.decode(bytes, ContentTypeCharset(es, lib).GetOr(UTF_8))
  }

  /** The User-Agent line a client puts before the message's own headers: one, exactly when the message has none. */
  function UserAgentLines(es: seq<Entry>, userAgent: string): (r: seq<Pair>)
    ensures |r| <= 1
    ensures r != [] <==> !HasKey(es, Key(USER_AGENT))
    ensures r != [] ==> r == [(USER_AGENT, userAgent)]
  {
    if HasKey(es, Key(USER_AGENT)) then [] else [(USER_AGENT, userAgent)]
  }

  /**
   * The lines a client emits for the User-Agent rule followed by the message's
   * headers carry, under User-Agent, the message's own values when it has any,
   * else exactly the one configured value.
   */
  lemma UserAgentRule(es: seq<Entry>, userAgent: string)
    ensures Select(UserAgentLines(es, userAgent) + Flatten(es), Key(USER_AGENT))
         == if HasKey(es, Key(USER_AGENT)) then ValuesOf(es, Key(USER_AGENT)) else [userAgent]
  {
    var k := Key(USER_AGENT);
    SelectAppend(UserAgentLines(es, userAgent), Flatten(es), k);
    SelectFlatten(es, k);
    if !HasKey(es, k) {
      ValuesOfAbsent(es, k);
    }
  }

  class StreamRequestMessage {
    var operation: UpnpRequest
    var udaMajorVersion: int
    var udaMinorVersion: int
    var headers: UpnpHeaders
    var body: Body

    constructor (operation: UpnpRequest, udaMajorVersion: int, udaMinorVersion: int, headers: UpnpHeaders, body: Body)
      ensures this.operation == operation && this.headers == headers && this.body == body
      ensures this.udaMajorVersion == udaMajorVersion && this.udaMinorVersion == udaMinorVersion
    {
      this.operation := operation;
      this.udaMajorVersion := udaMajorVersion;
      this.udaMinorVersion := udaMinorVersion;
      this.headers := headers;
      this.body := body;
    }
  }

  class StreamResponseMessage {
    var operation: UpnpResponse
    var headers: UpnpHeaders
    var body: Body

    /** A response message starts with an empty header collection of its own and no body. */
    constructor (operation: UpnpResponse)
      ensures this.operation == operation && fresh(headers) && headers.Valid() && headers.entries == []
      ensures body == NoBody
    {
      this.operation := operation;
      headers := new UpnpHeaders();
      body := NoBody;
    }

    method SetHeaders(headers: UpnpHeaders)
      modifies this
      ensures this.headers == headers && operation == old(operation) && body == old(body)
    {
      this.headers := headers;
    }

    method SetBody(body: Body)
      modifies this`body
      ensures this.body == body
    {
      this.body := body;
    }

    /** setBodyCharacters: decode with the charset of this message's own Content-Type; false models the UnsupportedEncodingException. */
    method SetBodyCharacters(bytes: seq<byte>, lib: Library) returns (ok: bool)
      modifies this`body
      ensures ok <==> BodyCharacters(headers.entries, bytes, lib).Some?
      ensures ok ==> body == StringBody(BodyCharacters(headers.entries, bytes, lib).value)
      ensures !ok ==> body == old(body)
    {
      var charset := ContentTypeCharset(headers.entries, lib);
      var text := lib.decode(bytes, if charset.Some? then charset.value else UTF_8);
      ok := text.Some?;
      if ok {
        body := StringBody(text.value);
      }
    }
  }
}
