# gurl, modelled in Dafny

gurl is a small Go HTTP request builder. A caller picks a method entry point
(`Get`, `Post`, …), gives a URL and a list of options, and gets back one error
value. Under the hood:

- `New` seeds a `Request` with defaults and applies the options left to right.
  Each option overwrites one scalar field, or appends one value to the `headers`
  or `params` multi-map.
- `Emit` runs a fixed pipeline:
  1. parse the URL;
  2. merge the parameters into its query and re-encode it;
  3. run the body producer;
  4. add a `Content-Type` header when none is present;
  5. build the request and copy the headers;
  6. call the client;
  7. check the status code;
  8. run the response reader.
- The response body is closed after a successful client call.
- Any stage can end the call with its own error.

This project models that core:

- the request descriptor and its options (`request.dfy`, module `Requests`);
- the emit pipeline (`emit.dfy`, module `Emitting`);
- the body producers and response readers (`body.dfy`, module `Body`);
- `url.Values` with its `QueryEscape`, `Encode` and `ParseQuery`, which the form
  body and the query merge depend on (`url_values.dfy`, module `UrlValues`);
- the method table (`method.dfy`, module `Methods`) and the nine entry points
  (`verbs.dfy`, module `Verbs`).

`bytes.dfy` holds Go strings as byte sequences and Go's string order for sorting
keys. `wrappers.dfy` and `errors.dfy` hold `Option`/`Result` and the error values.

How the model is built:

- **Imperative parts stay imperative.** `Request` is a class whose option methods
  update its fields in place. The constructor `New` runs a loop over the options.
  `Emit` is a method that changes only `x.headers`. For its nested `Add` loops and
  its `hasContentType` walk it uses loop methods over the map keys, taken in any
  order.
- **Each method is tied to a specification function.**
  - `Request.New` yields `ApplyAll(Defaults(m, url), options)`.
  - `Emit` yields `EmitSpec` of the fields it read.
- **The properties are lemmas about those functions.** For example:
  - headers and params collect exactly the option values, in order;
  - scalar options are last-wins;
  - every stage short-circuits;
  - the query merge appends and never replaces;
  - the Content-Type rule holds;
  - the status check skips the reader;
  - the body is closed exactly once when the client answered.

Library calls the pipeline makes are inputs, bundled in `Emitting.Env`:

- `url.Parse`;
- the error of `http.NewRequest` / `http.NewRequestWithContext`;
- the network behind `http.DefaultClient`.

These are inputs too:

- a custom client's `Do` and a test handler are functions inside `Requests.Client`;
- JSON marshalling, JSON decoding and `io.Copy` are given by their results, inside
  `Body.RequestBody` and `Body.ResponseReader`.

Go strings are byte sequences (`Bytes.Bytes`). `strings.ToLower(key) ==
"content-type"` is modelled as ASCII lower-casing. This is exact for that
comparison. Go lowers only two non-ASCII characters to ASCII letters: U+0130 to
`i` and U+212A to `k`. Neither letter occurs in `content-type`.

The outbound query is never the URL's query string as written. `Emit` decodes
it with `URL.Query()` (emit.go:26), adds the parameters, and re-encodes it with
`Values.Encode` (emit.go:32). The new string has its keys sorted and its escaping
normalised, so even with no parameters only the decoded key→values multi-map is
kept (`Emitting.NoParamsKeepsQuery`).

`URL.Query()` also discards its parse error. Two kinds of piece of the URL's own
query are dropped without a trace, and their pairs are missing from the query
sent:
- a piece holding `;`;
- a piece whose key or value does not unescape, such as `a=%zz`.

`UrlValues.DropsMalformedPiece` and `Emitting.MalformedQueryDropped` state this.

## Model

| member | source | states |
|---|---|---|
| Bytes.LowerMatches | emit.go:43 | for a lower-case target, lower-casing a string gives the target exactly when the string is the target with any of its letters in upper case |
| Bytes.ToLower | emit.go:43 | lower-casing keeps the length and lowers exactly the ASCII capitals, byte by byte |
| Bytes.SortedKeys | body.go:33 | the keys `Values.Encode` walks: each key of the map exactly once, in strictly increasing Go string order |
| UrlValues.Add | emit.go:29 | `Values.Add` appends the value at the end of that key's list, creates the key if needed, and leaves every other key as it was |
| UrlValues.Merge | emit.go:26-32 | the merged query holds, per key, the URL's values followed by the parameter's values; a key appears iff it is in the URL's query or has parameter values |
| UrlValues.MergeEmpty | emit.go:26-32 | merging no parameters into a decoded query gives that query back |
| UrlValues.DropsMalformedPiece | emit.go:26 | `URL.Query()` skips a piece that holds `;` or whose key or value does not unescape: nothing is added for it, the error is set and then dropped, and decoding goes on after the next `&` |
| UrlValues.ParseFromIgnoresErr | emit.go:26 | the decoded values do not depend on whether an error was met earlier |
| UrlValues.DropsBadEscape | emit.go:26 | `a=%z…&b=x` with a non-hex digit after `%` decodes to `b=x` alone, with the error set |
| UrlValues.MalformedEscapeExample | emit.go:26 | `a=%zz&b=1` decodes to `{b: [1]}`, with the error set |
| UrlValues.QueryWellFormed | emit.go:26 | a decoded query never holds a key without values |
| UrlValues.EscapeAlphabet | body.go:33 | `QueryEscape` output never contains `&`, `=` or `;`, so the pair and list separators stay unambiguous |
| UrlValues.EscapeUnreserved | body.go:33 | the unreserved characters of section 2.3 of RFC 3986 are kept as they are |
| UrlValues.UnescapeEscape | body.go:26-33 | form-unescaping (`+` to space, `%XX` to a byte) the output of `QueryEscape` recovers the original bytes |
| UrlValues.ParseEncode | body.go:33 | for every multi-map without empty lists, `ParseQuery(Encode(v))` gives `v` back, with no error |
| UrlValues.EncodeOneKey | emit.go:32 | a one-key, one-value multi-map encodes as `QueryEscape(k)=QueryEscape(x)` |
| UrlValues.EncodeTwoKeys | body.go:33 | a two-key multi-map encodes its pairs smaller key first, joined by `&` |
| Body.Produce | body.go:16-41 | `EncodeAsJSON`: on success the bytes, hint `application/json` and no error; on failure no reader, an empty hint and the error wrapped as "marshaling body as json". `EncodeAsURL`: never fails, always hints `application/x-www-form-urlencoded` and yields a reader. `ByReader`: the reader unchanged, an empty hint and no error. The default producer gives nothing. |
| Body.FillForm | body.go:29-32 | the loop adding every entry, whatever order the map is walked in, yields each key with exactly its one value |
| Body.ProduceForm | body.go:27-35 | the form producer's closure gives what `Produce` says for `EncodeAsURL` |
| Body.RunProducer | emit.go:35 | calling the request's producer gives `Produce` of it |
| Body.FormBodyRoundTrip | body.go:27-35 | decoding the form body gives back every key with its one value, with no error |
| Body.EscapeWordsAndUmlaut | body.go:33 | a space becomes `+` and each byte of UTF-8 `ü` becomes `%C3` / `%BC` while unreserved words stay |
| Body.FormTwoKeys | body.go:27-35 | a two-entry form body is `k1=x1&k2=…` with the smaller key first, each part query-escaped |
| Body.FormBodyExample | examples/basic_test.go:78-85 | `{color: blue, text: "Hello Günter"}` is sent as `color=blue&text=Hello+G%C3%BCnter` with the form hint and no error |
| Body.Read | body.go:45-61 | `DecodeAsJSON` and `CopyStream` return nil on success and the error wrapped as "decoding body as json" / "coping body to writer" on failure; a custom reader's error is returned as is |
| Methods.Code | method.go:5-15 | every constant has a value in 1..9, so the zero value is not a method |
| Methods.FromCode | method.go:5-15 | exactly the values 1..9 name a constant, and that constant's value is the one asked for |
| Methods.CodeInjective | method.go:5-15 | distinct constants have distinct values |
| Methods.Name | method.go:17-27 | `methodMap` gives every constant a non-empty name |
| Methods.NameIsSuffix | method.go:17-27 | each name is the suffix of its constant's identifier, e.g. `MethodPATCH` gives `PATCH` |
| Methods.NameInjective | method.go:17-27 | distinct constants get distinct names |
| Requests.Do | request.go:102-110 | the test client runs the handler and never returns an error; the default client is the network; a custom client is its own `Do` |
| Requests.ApplyOption | request.go:60-133 | no option changes the method or the URL; `WithHeader` / `WithParam` append the value at the end of that key's list and leave every other key alone |
| Requests.OptionFrame | request.go:60-133 | an option changes only its own field; every other field keeps its value |
| Requests.ScalarOverwrites | request.go:60-133 | a scalar option sets its field to the same value whatever the field held |
| Requests.KeepsTarget | request.go:51-53 | after any list of options, the method and URL are those `New` was given |
| Requests.ApplyAllAppend | request.go:51-53 | applying `a` then `b` is applying `a + b`: options run left to right, each once |
| Requests.Untouched | request.go:51-53 | options that do not write a field leave it as it was |
| Requests.LastWins | request.go:60-133 | a scalar field holds what the last option writing it put there; `WithClient` and `WithHandlerFunc` share `client`, so whichever comes last wins |
| Requests.CollectedStep | request.go:74-86 | one option appends under a key exactly its own value, and only when it is a header or parameter option for that key |
| Requests.Collected | request.go:74-86 | after the options, `headers[k]` / `params[k]` is the old list followed by exactly the values the options appended under `k`, in order; a key is present only when it was before or an option appended to it |
| Requests.HeadersOfNew | request.go:35-56 | after `New`, `headers[k]` is exactly the `WithHeader(k, _)` values in order, and `k` is present iff there was one |
| Requests.ParamsOfNew | request.go:35-56 | after `New`, `params[k]` is exactly the `WithParam(k, _)` values in order, and `k` is present iff there was one |
| Requests.OptionsWellFormed | request.go:74-86 | headers and params only ever hold keys with at least one value |
| Requests.Request.New | request.go:35-56 | the new request's fields are the defaults (expected code 200, empty maps, no context, no body, no reader, default client and logger) with every option applied once, left to right |
| Requests.Request.Apply | request.go:51-53 | running one option closure changes the fields as `ApplyOption` says |
| Requests.Request.SetCtx | request.go:61-65 | `WithCtx` sets the context and nothing else |
| Requests.Request.SetExpectedCode | request.go:68-72 | `WithExpectedCode` sets the expected code and nothing else |
| Requests.Request.AddHeader | request.go:75-79 | `WithHeader` appends the value to `headers[key]` and changes nothing else |
| Requests.Request.AddParam | request.go:82-86 | `WithParam` appends the value to `params[key]` and changes nothing else |
| Requests.Request.SetBody | request.go:89-93 | `WithBody` sets the body producer and nothing else |
| Requests.Request.SetClient | request.go:96-119 | `WithClient` sets the client (`WithHandlerFunc` sets a test client) and nothing else |
| Requests.Request.SetLogger | request.go:122-126 | `WithLogger` sets the logger and nothing else |
| Requests.Request.SetReader | request.go:129-133 | `WithReader` sets the response reader and nothing else |
| Emitting.StagesShortCircuit | emit.go:20-77 | a URL parse failure returns the parse error wrapped as "parsing URL"; no later stage runs and nothing is sent. A producer error comes back verbatim, before any build or send. A build error is wrapped as "creating HTTP request", with no send. A transport error occurs exactly when the client call fails, and is that failure wrapped as "sending HTTP request"; nothing after it runs. After a successful body step, the headers are the Content-Type rule applied to the caller's |
| Emitting.OutboundQuery | emit.go:25-32 | the query sent decodes without error to, per key, the URL's own values followed by `params[key]` in order; the rest of the URL is unchanged |
| Emitting.MalformedQueryDropped | emit.go:25-32 | a malformed first piece of the URL's query is missing from the query sent: that query decodes to the rest of the URL's query, merged with the parameters |
| Emitting.SentShape | emit.go:20-71 | a request reaches the client only after the URL parsed, the producer succeeded and the build succeeded. It is then the built request: the method's name, the merged query, the produced body, the context and the headers after the Content-Type step |
| Emitting.NotSentTrace | emit.go:20-64 | a call that never reached the client stopped at the URL, the body or the build, with that stage's error |
| Emitting.NoParamsKeepsQuery | emit.go:25-32 | with no parameters, the query sent decodes to the same multi-map as the URL's own |
| Emitting.SentRequest | emit.go:55-71 | the request sent carries the method's name, the context and the produced body. For every key it carries the values of the headers after the Content-Type step, in order |
| Emitting.ContentTypeAnyCase | emit.go:41-48 | a key names Content-Type exactly when it is `content-type` with any of its letters in upper case, so `HasContentType` holds exactly when some header key is such a spelling |
| Emitting.ContentTypeRule | emit.go:40-52 | a key that names Content-Type in any case is never overwritten; an empty hint adds nothing; otherwise exactly `Content-Type: [hint]` is added, no other key changes, and the header is then present |
| Emitting.ContentTypeIdempotent | emit.go:40-52 | applying the Content-Type step twice with the same hint is applying it once |
| Emitting.ByReaderAddsNoContentType | body.go:37-41 | with a `ByReader` body the request's headers stay as the caller set them |
| Emitting.StatusAndReader | emit.go:79-93 | once the client answered: a positive expected code that the status misses gives `UnexpectedCode` with that status and the whole body, and the reader is skipped. Otherwise a set reader runs exactly once and its error is returned verbatim, and without a reader the call succeeds |
| Emitting.RespondSteps | emit.go:79-93 | after an answer: a missed positive expected code gives `UnexpectedCode` with the status and body and runs no reader; otherwise the reader runs exactly once if set, and its error, or none, decides the result |
| Emitting.UnexpectedCodeOnlyOnMismatch | emit.go:79-84 | `UnexpectedCode` only arises from an answered call whose status differs from a positive expected code; an expected code of 0 or less never gives it |
| Emitting.ClosedOnce | emit.go:73-77 | the response body is closed exactly once, as the last step, when the client answered, and never otherwise |
| Emitting.BodyReadOnlyWhenAnswered | emit.go:73-91 | the response body is read (by `io.ReadAll` or the reader) only when the client answered |
| Emitting.TestClientAlwaysAnswers | request.go:106-110 | with the `WithHandlerFunc` client, no call ends in a transport error, and every request sent is answered |
| Emitting.FindContentType | emit.go:41-48 | the key walk returns true iff some header key lower-cases to `content-type` |
| Emitting.AddValues | emit.go:28-30 | the inner loop appends all of one key's values in order and touches no other key |
| Emitting.AddEach | emit.go:27-31 | the nested loops, walking keys in any order, yield exactly the merge: per key, the old values followed by the added ones |
| Emitting.ApplyContentType | emit.go:40-52 | the request's headers become the Content-Type rule applied to the old headers |
| Emitting.SendBuilt | emit.go:54-93 | building, copying the headers, sending, checking and reading give what the last stages of `EmitSpec` say |
| Emitting.EmitBody | emit.go:34-52 | producing the body and applying the Content-Type step, then the rest, give what `EmitSpec` says after the parse |
| Emitting.Emit | emit.go:13-94 | the result, the steps taken, the request sent and the new headers are those `EmitSpec` gives for the fields as they were; only `headers` changes |
| Verbs.Get | method.go:29-31 | `Get(uri, opts...)` returns the error of emitting `New(GET, uri, opts...)` |
| Verbs.Head | method.go:33-35 | `Head` likewise with `HEAD` |
| Verbs.Post | method.go:37-39 | `Post` likewise with `POST` |
| Verbs.Put | method.go:41-43 | `Put` likewise with `PUT` |
| Verbs.Delete | method.go:45-47 | `Delete` likewise with `DELETE` |
| Verbs.Connect | method.go:49-51 | `Connect` likewise with `CONNECT` |
| Verbs.Options | method.go:53-55 | `Options` likewise with `OPTIONS` |
| Verbs.Trace | method.go:57-59 | `Trace` likewise with `TRACE` |
| Verbs.Patch | method.go:61-63 | `Patch` likewise with `PATCH` |
| Verbs.ErrorClient | emit.go:79-84 | a client answering 500 on a request expecting 200 gives `UnexpectedCode(500, body)` with the body it sent |
| Verbs.ErrorClientExample | examples/error_test.go:14-33 | `Get` with that client and no other option returns the unexpected-code error, and its "body" value is the client's body |
| Verbs.OneParamQuery | emit.go:25-32 | one unreserved parameter added to a URL without a query becomes its whole query `k=x` |
| Verbs.WithParamExample | examples/client_test.go:13-33 | `Get(url, WithParam("q", "security"), WithClient(c))` sends the URL with the query `q=security` |

## Left out

- Logging through `slog` (emit.go:14-18, request.go:46-48): it is observable only. `Requests.Logger` records which logger is set and nothing more.
- The URL grammar of `url.Parse` and the checks of `http.NewRequest` / `http.NewRequestWithContext` (emit.go:20, 56-60) are library code. They are inputs: a parse result, with the URL split into everything-but-the-query and the raw query, and a build error or none.
- `baseURL.String()` (emit.go:57): the model hands the split URL itself to the builder and the client. Re-joining it into a string is not modelled.
- The context's role inside `net/http` (cancellation, deadlines). A context is an identity carried into the request.
- `json.Marshal`, `json.Decoder.Decode`, `io.Copy`, `io.ReadAll` and the internals of `httptest.ResponseRecorder`: library code. The model uses their results. A test handler is a function from the request to the recorded response.
- `fmt.Sprintf("%v", value)` in `EncodeAsURL` (body.go:31): form values arrive already formatted as strings.
- Go map iteration order (emit.go:27, 67; body.go:30): the loop methods take keys in any order, and the properties are stated per key.
- `Emitting.SentRequest`: does not model `http.Header.Add`'s canonicalisation of header names (emit.go:69). It states the copy with the keys as the caller wrote them. Canonicalising can fold two spellings of one name into a single key whose value order depends on the map walk. That order is unspecified.
- Streams are modelled as the bytes they yield: a reader is read whole, once. The close is an event in the trace. Partial reads and errors from `Close` are not modelled.
- `nil` producers, clients and loggers passed to `WithBody`, `WithClient` or `WithLogger`: Go would panic on them. These options take a value here. A `nil` context or reader is modelled, as `None`.
- `Method` values other than the nine constants: the Go type is an `int` and `methodMap` gives an empty name for any other value. The model's `Methods.Method` holds only the nine.
- `ErrInvalidOption` (error.go:7) is declared and never used. `ErrUnexpectedCode` is the `UnexpectedCode` outcome, with its "code" and "body" values.
- `WithReader`'s comment (request.go:128) tells readers to close the body themselves. Neither built-in reader does, and `Emit` closes the body itself (emit.go:77). A custom reader's own closing is not modelled.
- The comment at examples/basic_test.go:38-39 is not a property. Its URL has no `?`, so `&q=security` belongs to the path. It also claims a parameter order that `Encode`'s key sort would not give.
