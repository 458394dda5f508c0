/**
 * The nine entry points: each builds a request for its method with `New` and
 * emits it at once, returning `Emit`'s error.
 */
module Verbs {
  import opened Wrappers
  import opened Bytes
  import opened Errors
  import opened UrlValues
  import opened Body
  import opened Methods
  import opened Requests
  import opened Emitting

  /** `Get(uri, options...)`. */
  method Get(uri: Bytes, options: seq<RequestOption>, env: Env) returns (err: Outcome)
    ensures err == EmitSpec(ApplyAll(Defaults(GET, uri), options), env).outcome
  {
    var x := new Request.New(GET, uri, options);
    var trace, sent;
    err, trace, sent := Emit(x, env);
  }

  /** `Head(uri, options...)`. */
  method Head(uri: Bytes, options: seq<RequestOption>, env: Env) returns (err: Outcome)
    ensures err == EmitSpec(ApplyAll(Defaults(HEAD, uri), options), env).outcome
  {
    var x := new Request.New(HEAD, uri, options);
    var trace, sent;
    err, trace, sent := Emit(x, env);
  }

  /** `Post(uri, options...)`. */
  method Post(uri: Bytes, options: seq<RequestOption>, env: Env) returns (err: Outcome)
    ensures err == EmitSpec(ApplyAll(Defaults(POST, uri), options), env).outcome
  {
    var x := new Request.New(POST, uri, options);
    var trace, sent;
    err, trace, sent := Emit(x, env);
  }

  /** `Put(uri, options...)`. */
  method Put(uri: Bytes, options: seq<RequestOption>, env: Env) returns (err: Outcome)
    ensures err == EmitSpec(ApplyAll(Defaults(PUT, uri), options), env).outcome
  {
    var x := new Request.New(PUT, uri, options);
    var trace, sent;
    err, trace, sent := Emit(x, env);
  }

  /** `Delete(uri, options...)`. */
  method Delete(uri: Bytes, options: seq<RequestOption>, env: Env) returns (err: Outcome)
    ensures err == EmitSpec(ApplyAll(Defaults(DELETE, uri), options), env).outcome
  {
    var x := new Request.New(DELETE, uri, options);
    var trace, sent;
    err, trace, sent := Emit(x, env);
  }

  /** `Connect(uri, options...)`. */
  method Connect(uri: Bytes, options: seq<RequestOption>, env: Env) returns (err: Outcome)
    ensures err == EmitSpec(ApplyAll(Defaults(CONNECT, uri), options), env).outcome
  {
    var x := new Request.New(CONNECT, uri, options);
    var trace, sent;
    err, trace, sent := Emit(x, env);
  }

  /** `Options(uri, options...)`. */
  method Options(uri: Bytes, options: seq<RequestOption>, env: Env) returns (err: Outcome)
    ensures err == EmitSpec(ApplyAll(Defaults(OPTIONS, uri), options), env).outcome
  {
    var x := new Request.New(OPTIONS, uri, options);
    var trace, sent;
    err, trace, sent := Emit(x, env);
  }

  /** `Trace(uri, options...)`. */
  method Trace(uri: Bytes, options: seq<RequestOption>, env: Env) returns (err: Outcome)
    ensures err == EmitSpec(ApplyAll(Defaults(TRACE, uri), options), env).outcome
  {
    var x := new Request.New(TRACE, uri, options);
    var trace, sent;
    err, trace, sent := Emit(x, env);
  }

  /** `Patch(uri, options...)`. */
  method Patch(uri: Bytes, options: seq<RequestOption>, env: Env) returns (err: Outcome)
    ensures err == EmitSpec(ApplyAll(Defaults(PATCH, uri), options), env).outcome
  {
    var x := new Request.New(PATCH, uri, options);
    var trace, sent;
    err, trace, sent := Emit(x, env);
  }

  /**
   * A client that always answers 500 with some body, on a request expecting
   * 200 whose URL parses, whose body is produced and which builds: the call
   * fails with `UnexpectedCode` carrying 500 and that body.
   */
  lemma ErrorClient(c: Config, env: Env, answer: Outbound -> Result<Response, Error>, body: Bytes)
    requires env.parseURL(c.url).Success? && Produce(c.body).err.None?
    requires forall ctx, verb, t :: env.newRequest(ctx, verb, t).None?
    requires c.client == CustomClient(answer) && c.expectedCode == StatusOK
    requires forall r :: answer(r) == Success(Response(500, body))
    ensures EmitSpec(c, env).outcome == UnexpectedCode(500, body)
  {
    var target := WithQuery(env.parseURL(c.url).value, c.params);
    var p := Produce(c.body);
    var headers := ContentTypePolicy(c.headers, p.contentType);
    var req := Outbound(Name(c.verb), target, p.reader, c.ctx, Merge(map[], headers));
    assert EmitSpec(c, env) == AfterParse(c, env, target);
    assert EmitSpec(c, env) == AfterBody(c, env, target, p.reader, headers);
    assert EmitSpec(c, env) == AfterBuild(c, env, req, headers);
    assert Do(c.client, env.network, req) == Success(Response(500, body));
  }

  /** `Get(uri, WithClient(errorClient))` with the client above ends in `UnexpectedCode(500, body)`. */
  lemma ErrorClientExample(uri: Bytes, env: Env, answer: Outbound -> Result<Response, Error>, body: Bytes)
    requires env.parseURL(uri).Success?
    requires forall ctx, verb, t :: env.newRequest(ctx, verb, t).None?
    requires forall r :: answer(r) == Success(Response(500, body))
    ensures EmitSpec(ApplyAll(Defaults(GET, uri), [WithClient(CustomClient(answer))]), env).outcome
         == UnexpectedCode(500, body)
  {
    var opts := [WithClient(CustomClient(answer))];
    assert opts[..0] == [];
    assert ApplyAll(Defaults(GET, uri), opts) == ApplyOption(ApplyAll(Defaults(GET, uri), []), opts[0]);
    var c := ApplyAll(Defaults(GET, uri), opts);
    assert c == Defaults(GET, uri).(client := CustomClient(answer));
    ErrorClient(c, env, answer, body);
  }

  /** A single unreserved parameter added to a URL without a query becomes its whole query. */
  lemma OneParamQuery(c: Config, env: Env, location: Bytes, k: Bytes, x: Bytes)
    requires env.parseURL(c.url) == Success(Target(location, []))
    requires c.params == map[k := [x]]
    requires AllUnreserved(k) && AllUnreserved(x)
    requires EmitSpec(c, env).sent.Some?
    ensures EmitSpec(c, env).sent.value.target == Target(location, k + [Equals] + x)
  {
    var s := EmitSpec(c, env);
    SentShape(c, env);
    assert s.sent.value.target == WithQuery(Target(location, []), c.params);
    OneParamTarget(location, k, x);
  }

  /** Merging one unreserved parameter into an empty query and encoding it gives `k=x`. */
  lemma OneParamTarget(location: Bytes, k: Bytes, x: Bytes)
    requires AllUnreserved(k) && AllUnreserved(x)
    ensures WithQuery(Target(location, []), map[k := [x]]) == Target(location, k + [Equals] + x)
  {
    assert Query([]) == map[];
    var params: Values := map[k := [x]];
    var m := Merge(map[], params);
    assert m == params by {
      assert m.Keys == params.Keys;
      assert m[k] == UrlValues.Get(m, k) == [x];
    }
    EncodeOneKey(k, x);
    EscapeUnreserved(k);
    EscapeUnreserved(x);
  }

  /** The options of the example below set only the parameter and the client. */
  lemma ParamAndClient(uri: Bytes, k: Bytes, x: Bytes, client: Client)
    ensures ApplyAll(Defaults(GET, uri), [WithParam(k, x), WithClient(client)]).params == map[k := [x]]
    ensures ApplyAll(Defaults(GET, uri), [WithParam(k, x), WithClient(client)]).url == uri
  {
    var d := Defaults(GET, uri);
    var opts := [WithParam(k, x), WithClient(client)];
    assert opts[..1] == [WithParam(k, x)];
    assert opts[..1][..0] == [];
    assert ApplyAll(d, opts[..1]) == ApplyOption(ApplyAll(d, []), WithParam(k, x));
    assert ApplyAll(d, opts) == ApplyOption(ApplyAll(d, opts[..1]), WithClient(client));
    assert UrlValues.Get(map[], k) == [];
    assert [] + [x] == [x];
    assert Add(map[], k, x) == map[k := [x]];
    assert ApplyAll(d, []) == d;
    assert ApplyOption(d, WithParam(k, x)).params == Add(map[], k, x);
  }

  /**
   * `Get("https://www.google.com/search", WithParam("q", "security"), WithClient(client))`
   * sends the URL with the query `q=security`.
   */
  lemma WithParamExample(c: Config, uri: Bytes, env: Env, location: Bytes, client: Client)
    requires c == ApplyAll(Defaults(GET, uri), [WithParam(Lit("q"), Lit("security")), WithClient(client)])
    requires env.parseURL(uri) == Success(Target(location, []))
    requires EmitSpec(c, env).sent.Some?
    ensures EmitSpec(c, env).sent.value.target == Target(location, Lit("q=security"))
  {
    ParamAndClient(uri, Lit("q"), Lit("security"), client);
    ParamExampleWords(Lit("q"), Lit("security"));
    OneParamQuery(c, env, location, Lit("q"), Lit("security"));
  }

  /** The byte-level facts behind the example above. */
  lemma ParamExampleWords(k: Bytes, x: Bytes)
    requires k == Lit("q") && x == Lit("security")
    ensures AllUnreserved(k) && AllUnreserved(x)
    ensures Lit("q=security") == k + [Equals] + x
  {
    assert AllUnreserved(k);
    assert AllUnreserved(x);
  }
}
