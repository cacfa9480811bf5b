# Cling stream clients and PositionInfo, modelled in Dafny

Cling's UPnP stream client turns a UPnP request message (an operation with
HTTP method and URI, a header collection and an optional string or binary
body) into an HTTP request, sends it through an HTTP engine, and turns the
HTTP response into a UPnP response message. Two implementations are modelled:

- `JettyClient`: `JettyStreamClientImpl`, over Jetty's `HttpClient`.
  The constructor derives the engine timeouts from the configuration in
  32-bit arithmetic and starts the engine. `sendRequest` injects
  User-Agent when the message has none, copies every header value, and adds
  content-type and content-length lines and content for a body. It then
  sends the request and maps the response: status message, headers and a
  body classified as text or bytes. Every exception inside its `try`
  becomes a null result. `stop` swallows the engine's failure.
- `OkHttpClient`: `OkHttpStreamClient`, over OkHttp. The same
  translation with different rules: there is no default content type, the
  HTTP method is set only for a message with a body, and the binary body is
  sent as it is. A non-empty response body is text exactly when the response
  has a Content-Type. An unknown status gives null.

`Position` models `PositionInfo`, the AVTransport playback position. It
covers the field defaults, all seven constructors (the one that decodes an
action-argument map as the static method `FromArguments`, with the
exceptions its casts and unboxing throw), the two setters, and the derived seconds and percentage.

Supporting modules:

- `Headers`: the UPnP header collection. Names are matched ASCII
  case-insensitively, and values are kept per name in insertion order.
- `Messages`: the request and response messages.
- `JavaLang`: Java's 32- and 64-bit wrap-around and decimal rendering.
- `Wrappers`: `Option` and `Result`.

Library code outside the model is passed in as function values:

- charset encoding and decoding;
- a content type's charset and whether it is textual;
- the status-message table;
- the user-agent template;
- `ModelUtil.fromTimeString` / `toTimeString`;
- the floating-point percentage.

The HTTP engine is an oracle: a function from the built request to a
response, or `None` when sending throws. A Java `null` is `None`. An
exception thrown out of an operation is a `Failure` or `Raised` value.

The model keeps three behaviours of the code as written:

- failures inside the Jetty client's `try`, and an unknown status in both
  clients, give a null result;
- the Jetty client sends a binary body as a zero-filled buffer of the right
  length, because the buffer is allocated and never filled;
- the Jetty client appends the response's headers to the request message's
  own header collection and hands that collection to the response message.
  So when the request had a Content-Type, the response body is classified
  by the request's content type.

## Model

| member | source | states |
|---|---|---|
| JavaLang.Wrap32 | core/src/main/java/org/fourthline/cling/transport/impl/jetty/JettyStreamClientImpl.java:65 | Java int arithmetic: the result is congruent to the exact value modulo 2^32 and equals it when it fits |
| JavaLang.Wrap64 | support/src/main/java/org/fourthline/cling/support/model/PositionInfo.java:152-154 | Java long arithmetic: congruent modulo 2^64, exact when it fits |
| JavaLang.Decimal | core/src/main/java/org/fourthline/cling/transport/impl/jetty/JettyStreamClientImpl.java:131 | String.valueOf of a length: non-empty, all digits, no leading zero |
| JavaLang.DecimalRoundTrip | core/src/main/java/org/fourthline/cling/transport/impl/jetty/JettyStreamClientImpl.java:151 | the content-length text parses back to the length it renders |
| Headers.Key | core/src/main/java/org/fourthline/cling/transport/impl/jetty/JettyStreamClientImpl.java:99| the case-folded name used to match header names: character by character the ASCII lower case of the name, so names differing only in letter case have the same key |
| Headers.LowerCaseSpellings | core/src/main/java/org/fourthline/cling/transport/impl/jetty/JettyStreamClientImpl.java:127-131 | the lower-case "content-type" and "content-length" the client writes name the same headers as Content-Type and Content-Length |
| Headers.FirstValue | core/src/main/java/org/fourthline/cling/transport/impl/jetty/JettyStreamClientImpl.java:118-121 | getContentTypeHeader: present exactly when the name has a value, and then it is the first value |
| Headers.LastValue | core/src/main/java/org/fourthline/cling/transport/impl/jetty/OkHttpStreamClient.kt:58| OkHttp's headers[name]: present exactly when some line carries the name, and then it is the value of the last such line |
| Headers.SelectFlatten | core/src/main/java/org/fourthline/cling/transport/impl/jetty/JettyStreamClientImpl.java:106-113 | walking the collection entry by entry and value by value yields, for each name, exactly its values in order |
| Headers.AddedWellFormed | core/src/main/java/org/fourthline/cling/transport/impl/jetty/JettyStreamClientImpl.java:176-180 | adding a value keeps names distinct and value lists non-empty |
| Headers.ValuesOfAdded | core/src/main/java/org/fourthline/cling/transport/impl/jetty/JettyStreamClientImpl.java:178 | add appends the value to its name's values and changes no other name |
| Headers.ValuesOfAddedAll | core/src/main/java/org/fourthline/cling/transport/impl/jetty/OkHttpStreamClient.kt:46-50 | adding a sequence of lines appends, per name, exactly the lines' values in order |
| Headers.AppendHeaderLines | core/src/main/java/org/fourthline/cling/transport/impl/jetty/JettyStreamClientImpl.java:106-113 | the loop appends every value of every entry; for each name the lines gain exactly the collection's values |
| Headers.UpnpHeaders.constructor | core/src/main/java/org/fourthline/cling/transport/impl/jetty/JettyStreamClientImpl.java:173 | a new collection is empty and well formed |
| Headers.UpnpHeaders.Add | core/src/main/java/org/fourthline/cling/transport/impl/jetty/JettyStreamClientImpl.java:178 | the new entries are the old with the value added; for every name, its values gain exactly that value when the name matches |
| Messages.UserAgentLines | core/src/main/java/org/fourthline/cling/transport/impl/jetty/JettyStreamClientImpl.java:99-105| at most one line, present exactly when the message has no User-Agent, and then it is User-Agent with the configured value |
| Messages.UserAgentRule | core/src/main/java/org/fourthline/cling/transport/impl/jetty/JettyStreamClientImpl.java:99-113 | the sent User-Agent values are the message's own when it has any, else exactly the configured value |
| Messages.StreamRequestMessage.constructor | core/src/main/java/org/fourthline/cling/transport/impl/jetty/JettyStreamClientImpl.java:89-95 | a request message holds its operation, versions, header collection and body |
| Messages.StreamResponseMessage.constructor | core/src/main/java/org/fourthline/cling/transport/impl/jetty/JettyStreamClientImpl.java:170 | a response message starts with its operation, a fresh empty collection and no body |
| Messages.StreamResponseMessage.SetHeaders | core/src/main/java/org/fourthline/cling/transport/impl/jetty/JettyStreamClientImpl.java:181 | setHeaders installs that very collection (aliasing it) and changes nothing else |
| Messages.StreamResponseMessage.SetBody | core/src/main/java/org/fourthline/cling/transport/impl/jetty/JettyStreamClientImpl.java:199 | setBody replaces the body |
| Messages.StreamResponseMessage.SetBodyCharacters | core/src/main/java/org/fourthline/cling/transport/impl/jetty/JettyStreamClientImpl.java:189-193 | succeeds exactly when the bytes decode with the message's charset (else UTF-8), and then the body is that text; on failure the body is unchanged |
| JettyClient.EngineTimeoutExact | core/src/main/java/org/fourthline/cling/transport/impl/jetty/JettyStreamClientImpl.java:65-69 | for timeouts from -5 to 2147478 seconds the engine timeout is (t+5)*1000 milliseconds exactly |
| JettyClient.EngineTimeoutWraps | core/src/main/java/org/fourthline/cling/transport/impl/jetty/JettyStreamClientImpl.java:65-69 | one second more overflows Java int: the timeout comes out negative |
| JettyClient.EngineTimeout | core/src/main/java/org/fourthline/cling/transport/impl/jetty/JettyStreamClientImpl.java:65-69 | the timeout put on the engine, `(timeoutSeconds + 5) * 1000` in Java int arithmetic: exact when the configured timeout is between -5 and 2147478 seconds |
| JettyClient.Zeros | core/src/main/java/org/fourthline/cling/transport/impl/jetty/JettyStreamClientImpl.java:147 | ByteBuffer.allocate gives n zero bytes |
| JettyClient.BodyLines | core/src/main/java/org/fourthline/cling/transport/impl/jetty/JettyStreamClientImpl.java:115-155 | the body branch: nothing for no body; for a body, a content-type line and a content-length line that match the content provider's type and length; it throws MissingContentType exactly for a binary body without content type, and UnsupportedCharset exactly when a string body cannot be encoded |
| JettyClient.BuildRequest | core/src/main/java/org/fourthline/cling/transport/impl/jetty/JettyStreamClientImpl.java:89-155 | the request built before sending: the message's URI and method, the body branch's content, and the User-Agent rule's line, the message's lines and the body's lines; it fails exactly when the body branch throws |
| JettyClient.ConvertResponse | core/src/main/java/org/fourthline/cling/transport/impl/jetty/JettyStreamClientImpl.java:157-215 | the try block on the engine's answer: never throws; on a failed send or unknown status the request collection is untouched, otherwise it has every response field added; a returned response carries the status code and its table message |
| JettyClient.SendSpec | core/src/main/java/org/fourthline/cling/transport/impl/jetty/JettyStreamClientImpl.java:88-216 | the whole of sendRequest: it throws exactly when building the request throws, and then leaves the request collection untouched |
| JettyClient.JettyStreamClientImpl.Init | core/src/main/java/org/fourthline/cling/transport/impl/jetty/JettyStreamClientImpl.java:55-69 | all four engine timeouts are set to the derived timeout |
| JettyClient.JettyStreamClientImpl.Create | core/src/main/java/org/fourthline/cling/transport/impl/jetty/JettyStreamClientImpl.java:55-80 | construction succeeds exactly when the engine starts, and then the client runs with equal timeouts |
| JettyClient.JettyStreamClientImpl.Stop | core/src/main/java/org/fourthline/cling/transport/impl/jetty/JettyStreamClientImpl.java:218-225 | the engine stops unless its stop fails; nothing is thrown |
| JettyClient.SelectRequestHeaders | core/src/main/java/org/fourthline/cling/transport/impl/jetty/JettyStreamClientImpl.java:88-155 | per name, the sent lines are the User-Agent line, then the message's values, then the body's lines |
| JettyClient.SelectBodyLines | core/src/main/java/org/fourthline/cling/transport/impl/jetty/JettyStreamClientImpl.java:127-131 | the two lines a body adds carry only content-type and content-length |
| JettyClient.UserAgentInjectedOnlyWhenMissing | core/src/main/java/org/fourthline/cling/transport/impl/jetty/JettyStreamClientImpl.java:99-105 | the configured User-Agent is sent, as the first line, exactly when the message has none; otherwise the message's values are sent unchanged |
| JettyClient.MessageHeadersCopied | core/src/main/java/org/fourthline/cling/transport/impl/jetty/JettyStreamClientImpl.java:106-113 | every other header name is sent with exactly the message's values, duplicates included |
| JettyClient.NoBodyAddsNoContentHeaders | core/src/main/java/org/fourthline/cling/transport/impl/jetty/JettyStreamClientImpl.java:116 | a bodiless message is sent with no content and no added content-type or content-length |
| JettyClient.StringBodyEncoded | core/src/main/java/org/fourthline/cling/transport/impl/jetty/JettyStreamClientImpl.java:117-132 | a string body is encoded with the message's charset (else UTF-8) and sent with the message's content type (else the UTF-8 XML default) and a content-length that parses to the encoded length; an unsupported charset throws before sending |
| JettyClient.BinaryBodyWithoutContentTypeThrows | core/src/main/java/org/fourthline/cling/transport/impl/jetty/JettyStreamClientImpl.java:138-139 | a binary body without a content type throws, whatever the engine would answer |
| JettyClient.BodyContentHeaders | core/src/main/java/org/fourthline/cling/transport/impl/jetty/JettyStreamClientImpl.java:127-152 | the sent lines of a request with a body carry, under content-type and content-length, the message's own values and then exactly the body's one value |
| JettyClient.BinaryBodySentZeroFilled | core/src/main/java/org/fourthline/cling/transport/impl/jetty/JettyStreamClientImpl.java:141-153| a binary body is sent as the zero-filled buffer of its length (equal to the message's bytes only when they are all zero), with one more content-type line carrying the message's content type and a content-length that parses to the body's length |
| JettyClient.JettyStreamClientImpl.NewRequest | core/src/main/java/org/fourthline/cling/transport/impl/jetty/JettyStreamClientImpl.java:89-155 | the built request equals JettyClient.BuildRequest, including the thrown errors |
| JettyClient.JettyStreamClientImpl.AddFields | core/src/main/java/org/fourthline/cling/transport/impl/jetty/JettyStreamClientImpl.java:173-180 | every response field value is added, name by name and in order, to the given collection |
| JettyClient.FailuresGiveNull | core/src/main/java/org/fourthline/cling/transport/impl/jetty/JettyStreamClientImpl.java:157-165 | a send that throws or an unknown status gives null |
| JettyClient.ResponseHeadersJoinRequestHeaders | core/src/main/java/org/fourthline/cling/transport/impl/jetty/JettyStreamClientImpl.java:173-181 | the response fields are appended to the request message's collection, per name after its values |
| JettyClient.ResponseJudgedByRequestContentType | core/src/main/java/org/fourthline/cling/transport/impl/jetty/JettyStreamClientImpl.java:178-185 | when the request had a Content-Type, the response message's content type is the request's |
| JettyClient.ResponseBodyClassified | core/src/main/java/org/fourthline/cling/transport/impl/jetty/JettyStreamClientImpl.java:184-204 | an absent or empty body gives none; a textual or missing content type gives the decoded text (null if undecodable); otherwise the bytes unchanged |
| JettyClient.JettyStreamClientImpl.SendRequest | core/src/main/java/org/fourthline/cling/transport/impl/jetty/JettyStreamClientImpl.java:88-216 | the outcome and the request message's collection equal JettyClient.SendSpec; a returned message shares the request's collection |
| OkHttpClient.OkHttpStreamClient.constructor | core/src/main/java/org/fourthline/cling/transport/impl/jetty/OkHttpStreamClient.kt:15-18 | the client holds its engine and configuration |
| OkHttpClient.OkHttpStreamClient.Stop | core/src/main/java/org/fourthline/cling/transport/impl/jetty/OkHttpStreamClient.kt:20-22 | stop changes nothing |
| OkHttpClient.OkHttpStreamClient.AddHeaders | core/src/main/java/org/fourthline/cling/transport/impl/jetty/OkHttpStreamClient.kt:70-87 | the builder gains the User-Agent rule's line and then every message header value |
| OkHttpClient.WithBody | core/src/main/java/org/fourthline/cling/transport/impl/jetty/OkHttpStreamClient.kt:89-111 | addBody: the builder unchanged for no body; otherwise the message's method with a request body carrying the message's content type (or none), and one Content-Length line denoting the body's length; it fails exactly when a string body cannot be encoded |
| OkHttpClient.BuildRequest | core/src/main/java/org/fourthline/cling/transport/impl/jetty/OkHttpStreamClient.kt:27-30 | the builder chain: the message's URI, and the sent lines start with addHeaders' lines |
| OkHttpClient.ParsedResponse | core/src/main/java/org/fourthline/cling/transport/impl/jetty/OkHttpStreamClient.kt:41-68 | parseResponse: null for an unknown status or an unreadable body; a parsed message carries the code and its table message and a collection with every response header added, and it has a body only for non-empty response bytes |
| OkHttpClient.SendSpec | core/src/main/java/org/fourthline/cling/transport/impl/jetty/OkHttpStreamClient.kt:26-39 | the whole of sendRequest: it throws exactly when building throws; a returned message answers an executed response and carries its code |
| OkHttpClient.HeadersShape | core/src/main/java/org/fourthline/cling/transport/impl/jetty/OkHttpStreamClient.kt:26-30 | the sent lines are addHeaders' lines followed by one Content-Length line exactly for a message with a body |
| OkHttpClient.UserAgentInjectedOnlyWhenMissing | core/src/main/java/org/fourthline/cling/transport/impl/jetty/OkHttpStreamClient.kt:73-78 | the configured User-Agent is sent exactly when the message has none; otherwise its own values are kept |
| OkHttpClient.TailSelect | core/src/main/java/org/fourthline/cling/transport/impl/jetty/OkHttpStreamClient.kt:95 | the trailing Content-Length line carries no other name |
| OkHttpClient.MessageHeadersCopied | core/src/main/java/org/fourthline/cling/transport/impl/jetty/OkHttpStreamClient.kt:80-84 | every name other than User-Agent and Content-Length is sent with exactly the message's values |
| OkHttpClient.OkHttpStreamClient.AddBody | core/src/main/java/org/fourthline/cling/transport/impl/jetty/OkHttpStreamClient.kt:89-111 | the builder after addBody equals OkHttpClient.WithBody |
| OkHttpClient.MethodSetOnlyWithBody | core/src/main/java/org/fourthline/cling/transport/impl/jetty/OkHttpStreamClient.kt:89-111 | the message's method is applied exactly when it has a body; without one the builder gets no extra header |
| OkHttpClient.StringBodyEncoded | core/src/main/java/org/fourthline/cling/transport/impl/jetty/OkHttpStreamClient.kt:91-97 | a string body is encoded with the charset (else UTF-8), sent with the message's content type or none, and a Content-Length that parses to the encoded length |
| OkHttpClient.BinaryBodySentUnchanged | core/src/main/java/org/fourthline/cling/transport/impl/jetty/OkHttpStreamClient.kt:98-106 | a binary body is sent unchanged with its content type and a Content-Length that parses to its length |
| OkHttpClient.ContentLengthLine | core/src/main/java/org/fourthline/cling/transport/impl/jetty/OkHttpStreamClient.kt:95 | the one added Content-Length value follows the message's own |
| OkHttpClient.UnknownStatusGivesNull | core/src/main/java/org/fourthline/cling/transport/impl/jetty/OkHttpStreamClient.kt:42 | a status without a message gives null |
| OkHttpClient.ResponseHeadersCopied | core/src/main/java/org/fourthline/cling/transport/impl/jetty/OkHttpStreamClient.kt:42-52 | the response message\'s operation is the code with its status-table message, and its collection holds, per name, every response header value in order |
| OkHttpClient.ResponseBodyTextIffContentType | core/src/main/java/org/fourthline/cling/transport/impl/jetty/OkHttpStreamClient.kt:54-65 | an absent or empty body gives none; a non-empty body is text exactly when the response has a Content-Type (null if undecodable), otherwise the bytes unchanged |
| OkHttpClient.OkHttpStreamClient.ParseResponse | core/src/main/java/org/fourthline/cling/transport/impl/jetty/OkHttpStreamClient.kt:41-68 | the returned message equals OkHttpClient.ParsedResponse (operation, collection, body), or null where that is none |
| OkHttpClient.ExecuteFailureGivesNull | core/src/main/java/org/fourthline/cling/transport/impl/jetty/OkHttpStreamClient.kt:32-38 | an exception from execute gives null |
| OkHttpClient.OkHttpStreamClient.SendRequest | core/src/main/java/org/fourthline/cling/transport/impl/jetty/OkHttpStreamClient.kt:26-39 | the outcome equals OkHttpClient.SendSpec: thrown while building, null on failure, else the parsed message |
| Position.StringArgument | support/src/main/java/org/fourthline/cling/support/model/PositionInfo.java:44-48 | a missing string argument is null |
| Position.CountArgument | support/src/main/java/org/fourthline/cling/support/model/PositionInfo.java:49-50 | a missing count argument is Integer.MAX_VALUE |
| Position.TrackArgument | support/src/main/java/org/fourthline/cling/support/model/PositionInfo.java:43 | the Track argument: its value exactly when it is an unsigned four-byte integer; a missing or null one throws NullPointerException, one of another type ClassCastException |
| Position.DecodeArguments | support/src/main/java/org/fourthline/cling/support/model/PositionInfo.java:41-52 | a missing Track throws NullPointerException; missing string arguments are null and missing counts Integer.MAX_VALUE |
| Position.WellTypedArgumentsAccepted | support/src/main/java/org/fourthline/cling/support/model/PositionInfo.java:41-52| arguments of the right types are always accepted, and all eight are carried over: Track as it is, each string its string or null when missing or null, each count its integer or Integer.MAX_VALUE when missing |
| Position.PositionInfo.constructor | support/src/main/java/org/fourthline/cling/support/model/PositionInfo.java:29-39 | the declared defaults: track 0, times "00:00:00", metadata "NOT_IMPLEMENTED", URI "", counts Integer.MAX_VALUE |
| Position.PositionInfo.FromArguments | support/src/main/java/org/fourthline/cling/support/model/PositionInfo.java:41-52 | the map constructor yields the decoded fields, or the exception the decoding throws |
| Position.PositionInfo.CopyWithTimes | support/src/main/java/org/fourthline/cling/support/model/PositionInfo.java:54-63 | a copy with new relative and absolute times and every other field the copy's |
| Position.PositionInfo.CopyWithSeconds | support/src/main/java/org/fourthline/cling/support/model/PositionInfo.java:65-74 | a copy with the times rendered from seconds and every other field the copy's |
| Position.PositionInfo.WithTimes | support/src/main/java/org/fourthline/cling/support/model/PositionInfo.java:76-83 | the given fields, with metadata and counts at their defaults |
| Position.PositionInfo.WithAll | support/src/main/java/org/fourthline/cling/support/model/PositionInfo.java:85-96 | every field from its argument |
| Position.PositionInfo.WithMetaData | support/src/main/java/org/fourthline/cling/support/model/PositionInfo.java:98-102 | the given fields, with times and counts at their defaults |
| Position.PositionInfo.SetTrackDuration | support/src/main/java/org/fourthline/cling/support/model/PositionInfo.java:136-138 | only the duration changes |
| Position.PositionInfo.SetRelTime | support/src/main/java/org/fourthline/cling/support/model/PositionInfo.java:140-142 | only the relative time changes |
| Position.DurationSeconds | support/src/main/java/org/fourthline/cling/support/model/PositionInfo.java:144-146 | a null duration is 0 seconds, otherwise its parsed value |
| Position.ElapsedSeconds | support/src/main/java/org/fourthline/cling/support/model/PositionInfo.java:148-150 | a null or "NOT_IMPLEMENTED" relative time is 0 seconds, otherwise its parsed value |
| Position.RemainingSeconds | support/src/main/java/org/fourthline/cling/support/model/PositionInfo.java:152-154 | elapsed plus remaining is the duration whenever both are non-negative; otherwise congruent modulo 2^64 |
| Position.ElapsedPercent | support/src/main/java/org/fourthline/cling/support/model/PositionInfo.java:156-161 | 0 whenever elapsed or total is 0, otherwise the percentage |
| Position.PositionInfo.TrackDurationSeconds | support/src/main/java/org/fourthline/cling/support/model/PositionInfo.java:144-146 | a position without duration has 0 seconds of it |
| Position.PositionInfo.TrackElapsedSeconds | support/src/main/java/org/fourthline/cling/support/model/PositionInfo.java:148-150 | a position with no or "NOT_IMPLEMENTED" relative time has 0 seconds elapsed |
| Position.PositionInfo.TrackRemainingSeconds | support/src/main/java/org/fourthline/cling/support/model/PositionInfo.java:152-154 | elapsed plus remaining is the duration; with nothing elapsed, the whole duration remains |
| Position.PositionInfo.GetElapsedPercent | support/src/main/java/org/fourthline/cling/support/model/PositionInfo.java:156-161| 0 whenever the elapsed or the duration seconds are 0 (so also without a duration or elapsed time), otherwise the percentage of elapsed over duration |

## Left out

- The HTTP engines' internals (connections, TLS, redirects, timeouts taking effect) are an oracle from request to response or exception. The request's Host header is not added, as in the code.
- Java's `InterruptedException`, logging, `toString`, `getConfiguration` and the getters are not modelled.
- Concurrency: calls are taken one at a time.
- The retry count is not modelled. The code has it commented out, and both clients make exactly one attempt.
- Charset encoding and decoding, a content type's charset parameter, the textual test, the status table and the user-agent template are parameters. Their own behaviour is not part of this model.
- Headers.Key: header-name matching is ASCII case folding, with no Unicode case rules.
- Headers.UpnpHeaders.Add: the collection's iteration order is insertion order of first use of a name. Java's hash-map order is not modelled.
- Header-value syntax is not checked. MimeType parsing and rendering are not modelled: where the clients send `contentType.toString()` of the parsed Content-Type, the model sends the header text itself, so header text is taken to equal its parsed-and-rendered form. The Jetty default content type is taken to render as `text/xml; charset="utf-8"`; its exact rendering is not part of this model. Every Content-Type value is taken as parsed; how the header collection treats a value that does not parse is not modelled.
- JettyClient.BuildRequest: what Jetty's `content(provider, type)` does to the request's own headers (it may set a Content-Type of its own) is not modelled. The model records the provider and its type once, for both identical calls.
- JettyClient.ConvertResponse: the response fields are the per-name value lists Jetty reports, in the order it reports their names.
- OkHttpClient.WithBody: OkHttp's fallback to UTF-8 for an unsupported or missing charset in a media type, and the "; charset=utf-8" it then appends to the media type, are not modelled. An encoding that fails is taken as an exception thrown while building the request.
- OkHttpClient.WithBody: a binary message whose body bytes are null is not modelled. The binary body of a message is always present, so the null check in addBody is always taken.
- OkHttpClient.ParsedResponse: Content-Type lookup follows OkHttp's last-value rule, and the comparison against the default content type's type ("text") is kept although it cannot change the outcome.
- Position.PositionInfo.WithTimes: the track is a `uint32`. The range check of `UnsignedIntegerFourBytes`, which throws for a track outside 0..2^32-1, is not modelled for this and the other numeric constructors.
- Position.DecodeArguments: a map entry whose `ActionArgumentValue` itself is null is not modelled. Only a null value inside it is.
- Position.ElapsedPercent: the floating-point division and `Double.intValue` truncation are a parameter. Only the zero guard is modelled.
- ModelUtil.fromTimeString and toTimeString are parameters. Their parsing and formatting are not part of this model.
