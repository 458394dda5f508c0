/**
 * The request descriptor: a `Request` seeded with defaults by `New` and then
 * configured by option closures applied left to right. Each option overwrites
 * one scalar field or appends one value to the `headers` or `params` multi-map.
 */
module Requests {
  import opened Wrappers
  import opened Bytes
  import opened Errors
  import opened UrlValues
  import opened Body
  import opened Methods

  /** `http.StatusOK`, the expected code `New` starts from. */
  const StatusOK: int := 200

  /** A `context.Context`, known only by identity. */
  datatype Context = Context(id: nat)

  /** A `*slog.Logger`: the error-level text logger on stdout that `New` installs, or another one. */
  datatype Logger = DefaultLogger | Logger(id: nat)

  /** A URL as `url.Parse` splits it: everything but the query, and the raw query. */
  datatype Target = Target(location: Bytes, rawQuery: Bytes)

  /** The `*http.Request` handed to the client. */
  datatype Outbound = Outbound(verb: string, target: Target, body: Option<Bytes>, ctx: Option<Context>, header: Values)

  /** The `*http.Response` a client answers with: its status code and its whole body. */
  datatype Response = Response(status: int, body: Bytes)

  /** A `Client`: `http.DefaultClient`, any other `Do`, or the recorder-backed test client. */
  datatype Client =
    | DefaultClient                                         // `http.DefaultClient`, i.e. the network
    | CustomClient(doRequest: Outbound -> Result<Response, Error>)
    | TestClient(handler: Outbound -> Response)             // `WithHandlerFunc`: the handler's recorded answer

  /**
   * `x.client.Do(req)`. The default client goes to the network, which is an
   * input here; the test client runs the handler and never fails.
   */
  function Do(c: Client, network: Outbound -> Result<Response, Error>, req: Outbound): (r: Result<Response, Error>)
    ensures c.TestClient? ==> r.Success? && r.value == c.handler(req)
    ensures c.CustomClient? ==> r == c.doRequest(req)
    ensures c.DefaultClient? ==> r == network(req)
  {
    match c
    case DefaultClient => network(req)
    case CustomClient(doRequest) => doRequest(req)
    case TestClient(handler) => Success(handler(req))
  }

  /** The fields of a `Request`, as one value. */
  datatype Config = Config(
    verb: Method,
    url: Bytes,
    ctx: Option<Context>,
    expectedCode: int,
    headers: Values,
    params: Values,
    body: RequestBody,
    reader: Option<ResponseReader>,
    client: Client,
    logger: Logger)

  /** An `Option` closure, by the option that made it. */
  datatype RequestOption =
    | WithCtx(ctx: Option<Context>)
    | WithExpectedCode(statusCode: int)
    | WithHeader(key: Bytes, value: Bytes)
    | WithParam(key: Bytes, value: Bytes)
    | WithBody(body: RequestBody)
    | WithClient(client: Client)
    | WithHandlerFunc(handler: Outbound -> Response)
    | WithLogger(logger: Logger)
    | WithReader(reader: Option<ResponseReader>)

  /** The fields an option can change; `method` and `url` are not among them. */
  datatype Field = CtxField | ExpectedCodeField | HeadersField | ParamsField | BodyField | ClientField | LoggerField | ReaderField

  /** The one field each option writes. */
  function FieldOf(o: RequestOption): (f: Field) {
    match o
    case WithCtx(_) => CtxField
    case WithExpectedCode(_) => ExpectedCodeField
    case WithHeader(_, _) => HeadersField
    case WithParam(_, _) => ParamsField
    case WithBody(_) => BodyField
    case WithClient(_) => ClientField
    case WithHandlerFunc(_) => ClientField
    case WithLogger(_) => LoggerField
    case WithReader(_) => ReaderField
  }

  /** The two fields options append to rather than overwrite. */
  predicate IsMultiMap(f: Field) {
    f == HeadersField || f == ParamsField
  }

  /** `a` and `b` agree on field `f`. */
  ghost predicate SameField(a: Config, b: Config, f: Field) {
    match f
    case CtxField => a.ctx == b.ctx
    case ExpectedCodeField => a.expectedCode == b.expectedCode
    case HeadersField => a.headers == b.headers
    case ParamsField => a.params == b.params
    case BodyField => a.body == b.body
    case ClientField => a.client == b.client
    case LoggerField => a.logger == b.logger
    case ReaderField => a.reader == b.reader
  }

  /** What `New` seeds before any option runs. */
  function Defaults(verb: Method, url: Bytes): (c: Config) {
    Config(verb, url, None, StatusOK, map[], map[], NoBody, None, DefaultClient, DefaultLogger)
  }

  /** Running one option closure on the request's fields. */
  function ApplyOption(c: Config, o: RequestOption): (r: Config)
    ensures r.verb == c.verb && r.url == c.url
    ensures o.WithHeader? ==> Get(r.headers, o.key) == Get(c.headers, o.key) + [o.value]
    ensures o.WithParam? ==> Get(r.params, o.key) == Get(c.params, o.key) + [o.value]
    ensures o.WithHeader? ==> forall k :: k != o.key ==> Get(r.headers, k) == Get(c.headers, k)
    ensures o.WithParam? ==> forall k :: k != o.key ==> Get(r.params, k) == Get(c.params, k)
  {
    match o
    case WithCtx(ctx) => c.(ctx := ctx)
    case WithExpectedCode(code) => c.(expectedCode := code)
    case WithHeader(k, v) => c.(headers := Add(c.headers, k, v))
    case WithParam(k, v) => c.(params := Add(c.params, k, v))
    case WithBody(b) => c.(body := b)
    case WithClient(cl) => c.(client := cl)
    case WithHandlerFunc(h) => c.(client := TestClient(h))
    case WithLogger(l) => c.(logger := l)
    case WithReader(rd) => c.(reader := rd)
  }

  /** Running the options in order, each exactly once. */
  function ApplyAll(c: Config, opts: seq<RequestOption>): (r: Config)
    decreases |opts|
  {
    if opts == [] then c else ApplyOption(ApplyAll(c, opts[..|opts| - 1]), opts[|opts| - 1])
  }

  /** An option writes its own field and leaves every other field as it was. */
  lemma OptionFrame(c: Config, o: RequestOption, f: Field)
    requires f != FieldOf(o)
    ensures SameField(ApplyOption(c, o), c, f)
  {
  }

  /** A scalar option writes its field regardless of what the field held. */
  lemma ScalarOverwrites(c: Config, d: Config, o: RequestOption)
    requires !IsMultiMap(FieldOf(o))
    ensures SameField(ApplyOption(c, o), ApplyOption(d, o), FieldOf(o))
  {
  }

  /** No option changes `method` or `url`. */
  lemma {:induction false} KeepsTarget(c: Config, opts: seq<RequestOption>)
    ensures ApplyAll(c, opts).verb == c.verb && ApplyAll(c, opts).url == c.url
    decreases |opts|
  {
    if opts != [] {
      KeepsTarget(c, opts[..|opts| - 1]);
    }
  }

  /** Running `a` and then `b` is running `a + b`. */
  lemma {:induction false} ApplyAllAppend(c: Config, a: seq<RequestOption>, b: seq<RequestOption>)
    ensures ApplyAll(c, a + b) == ApplyAll(ApplyAll(c, a), b)
    decreases |b|
  {
    if b == [] {
      assert a + b == a;
    } else {
      var n := |b| - 1;
      assert (a + b)[..|a + b| - 1] == a + b[..n];
      assert (a + b)[|a + b| - 1] == b[n];
      ApplyAllAppend(c, a, b[..n]);
    }
  }

  /** Options that never write `f` leave it as it was. */
  lemma {:induction false} Untouched(c: Config, opts: seq<RequestOption>, f: Field)
    requires forall j :: 0 <= j < |opts| ==> FieldOf(opts[j]) != f
    ensures SameField(ApplyAll(c, opts), c, f)
    decreases |opts|
  {
    if opts != [] {
      var n := |opts| - 1;
      Untouched(c, opts[..n], f);
      OptionFrame(ApplyAll(c, opts[..n]), opts[n], f);
    }
  }

  /**
   * Scalar options are last-wins: when no later option writes the same field,
   * the field holds what the last writing option put there.
   */
  lemma LastWins(c: Config, pre: seq<RequestOption>, o: RequestOption, post: seq<RequestOption>)
    requires !IsMultiMap(FieldOf(o))
    requires forall j :: 0 <= j < |post| ==> FieldOf(post[j]) != FieldOf(o)
    ensures SameField(ApplyAll(c, pre + [o] + post), ApplyOption(c, o), FieldOf(o))
  {
    var f := FieldOf(o);
    var mid := ApplyAll(c, pre + [o]);
    ApplyAllAppend(c, pre + [o], post);
    assert (pre + [o])[..|pre + [o]| - 1] == pre;
    assert mid == ApplyOption(ApplyAll(c, pre), o);
    ScalarOverwrites(ApplyAll(c, pre), c, o);
    Untouched(mid, post, f);
  }

  /** A multi-map field of the fields. */
  function MultiMapOf(c: Config, f: Field): (v: Values)
    requires IsMultiMap(f)
  {
    if f == HeadersField then c.headers else c.params
  }

  /** What one option appends under `k` to field `f`. */
  function AppendedBy(o: RequestOption, f: Field, k: Bytes): (xs: seq<Bytes>) {
    if FieldOf(o) == f && (o.WithHeader? || o.WithParam?) && o.key == k then [o.value] else []
  }

  /** The values the options append under `k` to field `f`, in the order they run. */
  function Appended(opts: seq<RequestOption>, f: Field, k: Bytes): (xs: seq<Bytes>)
    requires IsMultiMap(f)
    decreases |opts|
  {
    if opts == [] then []
    else
      Appended(opts[..|opts| - 1], f, k) + AppendedBy(opts[|opts| - 1], f, k)
  }

  /** One option appends to field `f` under `k` exactly what `AppendedBy` says, and adds no other key. */
  lemma CollectedStep(c: Config, o: RequestOption, f: Field, k: Bytes)
    requires IsMultiMap(f)
    ensures Get(MultiMapOf(ApplyOption(c, o), f), k) == Get(MultiMapOf(c, f), k) + AppendedBy(o, f, k)
    ensures k in MultiMapOf(ApplyOption(c, o), f) <==> k in MultiMapOf(c, f) || AppendedBy(o, f, k) != []
  {
    if FieldOf(o) != f {
      OptionFrame(c, o, f);
    }
  }

  /**
   * After the options, `headers[k]` (or `params[k]`) is what it was followed by
   * exactly the values the options appended under `k`, in order; a key is
   * present only when it was before or some option appended to it.
   */
  lemma Collected(c: Config, opts: seq<RequestOption>, f: Field, k: Bytes)
    requires IsMultiMap(f)
    ensures Get(MultiMapOf(ApplyAll(c, opts), f), k) == Get(MultiMapOf(c, f), k) + Appended(opts, f, k)
    ensures k in MultiMapOf(ApplyAll(c, opts), f) <==> k in MultiMapOf(c, f) || Appended(opts, f, k) != []
  {
    CollectedValues(c, opts, f, k);
    CollectedKeys(c, opts, f, k);
  }

  /** The values half of `Collected`. */
  lemma {:induction false} CollectedValues(c: Config, opts: seq<RequestOption>, f: Field, k: Bytes)
    requires IsMultiMap(f)
    ensures Get(MultiMapOf(ApplyAll(c, opts), f), k) == Get(MultiMapOf(c, f), k) + Appended(opts, f, k)
    decreases |opts|
  {
    if opts != [] {
      var n := |opts| - 1;
      var prev := ApplyAll(c, opts[..n]);
      assert ApplyAll(c, opts) == ApplyOption(prev, opts[n]);
      assert Appended(opts, f, k) == Appended(opts[..n], f, k) + AppendedBy(opts[n], f, k);
      CollectedValues(c, opts[..n], f, k);
      CollectedStep(prev, opts[n], f, k);
    }
  }

  /** The key half of `Collected`. */
  lemma {:induction false} CollectedKeys(c: Config, opts: seq<RequestOption>, f: Field, k: Bytes)
    requires IsMultiMap(f)
    ensures k in MultiMapOf(ApplyAll(c, opts), f) <==> k in MultiMapOf(c, f) || Appended(opts, f, k) != []
    decreases |opts|
  {
    if opts != [] {
      var n := |opts| - 1;
      var prev := ApplyAll(c, opts[..n]);
      assert ApplyAll(c, opts) == ApplyOption(prev, opts[n]);
      assert Appended(opts, f, k) == Appended(opts[..n], f, k) + AppendedBy(opts[n], f, k);
      CollectedKeys(c, opts[..n], f, k);
      CollectedStep(prev, opts[n], f, k);
    }
  }

  /** From `New`'s defaults, `headers[k]` is exactly the `WithHeader(k, _)` values in order. */
  lemma HeadersOfNew(verb: Method, url: Bytes, opts: seq<RequestOption>, k: Bytes)
    ensures Get(ApplyAll(Defaults(verb, url), opts).headers, k) == Appended(opts, HeadersField, k)
    ensures k in ApplyAll(Defaults(verb, url), opts).headers <==> Appended(opts, HeadersField, k) != []
  {
    Collected(Defaults(verb, url), opts, HeadersField, k);
  }

  /** From `New`'s defaults, `params[k]` is exactly the `WithParam(k, _)` values in order. */
  lemma ParamsOfNew(verb: Method, url: Bytes, opts: seq<RequestOption>, k: Bytes)
    ensures Get(ApplyAll(Defaults(verb, url), opts).params, k) == Appended(opts, ParamsField, k)
    ensures k in ApplyAll(Defaults(verb, url), opts).params <==> Appended(opts, ParamsField, k) != []
  {
    Collected(Defaults(verb, url), opts, ParamsField, k);
  }

  /** Both multi-maps only ever hold keys with values. */
  lemma {:induction false} OptionsWellFormed(c: Config, opts: seq<RequestOption>)
    requires WellFormed(c.headers) && WellFormed(c.params)
    ensures WellFormed(ApplyAll(c, opts).headers) && WellFormed(ApplyAll(c, opts).params)
    decreases |opts|
  {
    if opts != [] {
      OptionsWellFormed(c, opts[..|opts| - 1]);
    }
  }

  /** The mutable `*Request`. */
  class Request {
    var verb: Method
    var url: Bytes
    var ctx: Option<Context>
    var expectedCode: int
    var headers: Values
    var params: Values
    var body: RequestBody
    var reader: Option<ResponseReader>
    var client: Client
    var logger: Logger

    /** The fields as one value. */
    ghost function Snapshot(): Config
      reads this
    {
      Config(verb, url, ctx, expectedCode, headers, params, body, reader, client, logger)
    }

    /** `New(verb, url, options...)`: the defaults, then each option once, left to right. */
    constructor New(verb: Method, url: Bytes, options: seq<RequestOption>)
      ensures Snapshot() == ApplyAll(Defaults(verb, url), options)
    {
      this.verb := verb;
      this.url := url;
      ctx := None;
      expectedCode := StatusOK;
      headers := map[];
      params := map[];
      body := NoBody;
      reader := None;
      client := DefaultClient;
      logger := DefaultLogger;
      new;
      var i := 0;
      while i < |options|
        invariant 0 <= i <= |options|
        invariant Snapshot() == ApplyAll(Defaults(verb, url), options[..i])
      {
        assert options[..i + 1][..i] == options[..i];
        Apply(options[i]);
        i := i + 1;
      }
      assert options[..i] == options;
    }

    /** `opt(req)`. */
    method Apply(o: RequestOption)
      modifies this
      ensures Snapshot() == ApplyOption(old(Snapshot()), o)
    {
      match o
      case WithCtx(c) => SetCtx(c);
      case WithExpectedCode(code) => SetExpectedCode(code);
      case WithHeader(k, v) => AddHeader(k, v);
      case WithParam(k, v) => AddParam(k, v);
      case WithBody(b) => SetBody(b);
      case WithClient(cl) => SetClient(cl);
      case WithHandlerFunc(h) => SetClient(TestClient(h));
      case WithLogger(l) => SetLogger(l);
      case WithReader(rd) => SetReader(rd);
    }

    /** The closure of `WithCtx`. */
    method SetCtx(c: Option<Context>)
      modifies this`ctx
      ensures ctx == c
    {
      ctx := c;
    }

    /** The closure of `WithExpectedCode`. */
    method SetExpectedCode(code: int)
      modifies this`expectedCode
      ensures expectedCode == code
    {
      expectedCode := code;
    }

    /** The closure of `WithHeader`: `headers[key] = append(headers[key], value)`. */
    method AddHeader(key: Bytes, value: Bytes)
      modifies this`headers
      ensures headers == Add(old(headers), key, value)
    {
      var current := if key in headers then headers[key] else [];
      headers := headers[key := current + [value]];
    }

    /** The closure of `WithParam`: `params[key] = append(params[key], value)`. */
    method AddParam(key: Bytes, value: Bytes)
      modifies this`params
      ensures params == Add(old(params), key, value)
    {
      var current := if key in params then params[key] else [];
      params := params[key := current + [value]];
    }

    /** The closure of `WithBody`. */
    method SetBody(b: RequestBody)
      modifies this`body
      ensures body == b
    {
      body := b;
    }

    /** The closure of `WithClient`, and of `WithHandlerFunc` with a test client. */
    method SetClient(c: Client)
      modifies this`client
      ensures client == c
    {
      client := c;
    }

    /** The closure of `WithLogger`. */
    method SetLogger(l: Logger)
      modifies this`logger
      ensures logger == l
    {
      logger := l;
    }

    /** The closure of `WithReader`. */
    method SetReader(rd: Option<ResponseReader>)
      modifies this`reader
      ensures reader == rd
    {
      reader := rd;
    }
  }
}
