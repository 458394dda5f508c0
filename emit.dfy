/**
 * `(*Request).Emit`: parse the URL, merge the query, run the body producer,
 * apply the Content-Type policy, build the request, copy the headers, call the
 * client, check the status and run the reader. Every stage can end the call.
 */
module Emitting {
  import opened Wrappers
  import opened Bytes
  import opened Errors
  import opened UrlValues
  import opened Body
  import opened Methods
  import opened Requests

  /** The header key `Emit` writes, and the lower-case form any key is compared against. */
  const ContentTypeKey: Bytes := Lit("Content-Type")
  const ContentTypeLower: Bytes := Lit("content-type")

  /**
   * The library calls `Emit` makes, as inputs: `url.Parse`, the error of
   * `http.NewRequest` / `http.NewRequestWithContext` for a context, method name
   * and URL, and the network behind `http.DefaultClient`.
   */
  datatype Env = Env(
    parseURL: Bytes -> Result<Target, Error>,
    newRequest: (Option<Context>, string, Target) -> Option<Error>,
    network: Outbound -> Result<Response, Error>)

  /** The error `Emit` returns, by the stage that produced it; `Ok` is nil. */
  datatype Outcome =
    | Ok
    | ParseErr(err: Error)
    | BodyErr(err: Error)
    | BuildErr(err: Error)
    | TransportErr(err: Error)
    | UnexpectedCode(code: int, body: Bytes)   // `ErrUnexpectedCode` with its "code" and "body" values
    | ReaderErr(err: Error)

  /** The observable steps of one call, in the order they happen. */
  datatype Stage = ParseURL | RunBody | BuildRequest | SendRequest | ReadBody | RunReader | CloseBody

  /**
   * What one call does: its result, its steps, the request's `headers` field
   * afterwards, and the request handed to the client, if one was.
   */
  datatype Exchange = Exchange(outcome: Outcome, trace: seq<Stage>, headers: Values, sent: Option<Outbound>)

  /**
   * Some header key lower-cases to `content-type`. Lower-casing ASCII letters
   * only is exact here: no other character lowers into this ASCII target.
   */
  predicate HasContentType(h: Values) {
    exists k :: k in h && ToLower(k) == ContentTypeLower
  }

  /** A key names Content-Type exactly when it is `content-type` with any of its letters in upper case. */
  lemma ContentTypeAnyCase(h: Values, k: Bytes)
    ensures ToLower(k) == ContentTypeLower <==> EqualFold(k, ContentTypeLower)
    ensures HasContentType(h) <==> exists k' :: k' in h && EqualFold(k', ContentTypeLower)
  {
    assert forall i :: 0 <= i < |ContentTypeLower| ==> !(65 <= ContentTypeLower[i] <= 90);
    LowerMatches(k, ContentTypeLower);
    forall k' | k' in h
      ensures ToLower(k') == ContentTypeLower <==> EqualFold(k', ContentTypeLower)
    {
      LowerMatches(k', ContentTypeLower);
    }
  }

  /** emit.go's Content-Type step: a non-empty hint is written only when no key already names the header. */
  function ContentTypePolicy(h: Values, hint: Bytes): (r: Values) {
    if hint != [] && !HasContentType(h) then h[ContentTypeKey := [hint]] else h
  }

  /** The parsed URL with its query replaced by the merged, re-encoded one. */
  function WithQuery(base: Target, params: Values): (t: Target) {
    base.(rawQuery := Encode(Merge(Query(base.rawQuery), params)))
  }

  /** After the client answered: the status check, then the reader; the body is closed last on every path. */
  function Respond(expectedCode: int, reader: Option<ResponseReader>, resp: Response): (r: (Outcome, seq<Stage>)) {
    if expectedCode > 0 && resp.status != expectedCode then
      (UnexpectedCode(resp.status, resp.body), [ReadBody, CloseBody])
    else
      match reader
      case None => (Ok, [CloseBody])
      case Some(rd) =>
        match Read(rd, resp.body)
        case None => (Ok, [RunReader, CloseBody])
        case Some(e) => (ReaderErr(e), [RunReader, CloseBody])
  }

  /** The whole call, stage by stage, on the fields of the request. */
  function EmitSpec(c: Config, env: Env): (s: Exchange) {
    match env.parseURL(c.url)
    case Failure(e) => Exchange(ParseErr(Wrapped(e, "parsing URL")), [ParseURL], c.headers, None)
    case Success(base) => AfterParse(c, env, WithQuery(base, c.params))
  }

  /** From the body producer on, with the URL parsed and its query merged. */
  function AfterParse(c: Config, env: Env, target: Target): (s: Exchange) {
    var p := Produce(c.body);
    if p.err.Some? then Exchange(BodyErr(p.err.value), [ParseURL, RunBody], c.headers, None)
    else AfterBody(c, env, target, p.reader, ContentTypePolicy(c.headers, p.contentType))
  }

  /** From building the request on, with the body produced and the Content-Type step applied. */
  function AfterBody(c: Config, env: Env, target: Target, body: Option<Bytes>, headers: Values): (s: Exchange) {
    var verb := Name(c.verb);
    match env.newRequest(c.ctx, verb, target)
    case Some(e) =>
      Exchange(BuildErr(Wrapped(e, "creating HTTP request")), [ParseURL, RunBody, BuildRequest], headers, None)
    case None => AfterBuild(c, env, Outbound(verb, target, body, c.ctx, Merge(map[], headers)), headers)
  }

  /** The steps every call takes up to the client call. */
  const UpToSend: seq<Stage> := [ParseURL, RunBody, BuildRequest, SendRequest]

  /** From the client call on, with the request built and its headers copied. */
  function AfterBuild(c: Config, env: Env, req: Outbound, headers: Values): (s: Exchange) {
    match Do(c.client, env.network, req)
    case Failure(e) => Exchange(TransportErr(Wrapped(e, "sending HTTP request")), UpToSend, headers, Some(req))
    case Success(resp) =>
      var (outcome, rest) := Respond(c.expectedCode, c.reader, resp);
      Exchange(outcome, UpToSend + rest, headers, Some(req))
  }

  /** The client call was made and answered without error. */
  ghost predicate Delivered(c: Config, env: Env) {
    var s := EmitSpec(c, env);
    s.sent.Some? && Do(c.client, env.network, s.sent.value).Success?
  }

  // ---------------------------------------------------------------------------
  // What a call promises

  /**
   * Each stage's failure ends the call at once with that stage's error (wrapped,
   * or verbatim for the body producer), and no later stage runs.
   */
  lemma StagesShortCircuit(c: Config, env: Env)
    ensures var s := EmitSpec(c, env);
      (s.outcome.ParseErr? <==> env.parseURL(c.url).Failure?) &&
      (s.outcome.ParseErr? ==>
        s.outcome.err == Wrapped(env.parseURL(c.url).error, "parsing URL") &&
        s.trace == [ParseURL] && s.sent == None && s.headers == c.headers)
    ensures var s := EmitSpec(c, env);
      (s.outcome.BodyErr? <==> env.parseURL(c.url).Success? && Produce(c.body).err.Some?) &&
      (s.outcome.BodyErr? ==>
        s.outcome.err == Produce(c.body).err.value &&
        s.trace == [ParseURL, RunBody] && s.sent == None && s.headers == c.headers)
    ensures var s := EmitSpec(c, env);
      (s.outcome.BuildErr? <==>
        env.parseURL(c.url).Success? && Produce(c.body).err.None? &&
        env.newRequest(c.ctx, Name(c.verb), WithQuery(env.parseURL(c.url).value, c.params)).Some?) &&
      (s.outcome.BuildErr? ==>
        s.outcome.err == Wrapped(env.newRequest(c.ctx, Name(c.verb), WithQuery(env.parseURL(c.url).value, c.params)).value,
          "creating HTTP request") &&
        s.trace == [ParseURL, RunBody, BuildRequest] && s.sent == None)
    ensures var s := EmitSpec(c, env);
      (SendRequest in s.trace <==> s.sent.Some?) &&
      (s.outcome.TransportErr? <==> s.sent.Some? && Do(c.client, env.network, s.sent.value).Failure?) &&
      (s.outcome.TransportErr? ==>
        s.outcome.err == Wrapped(Do(c.client, env.network, s.sent.value).error, "sending HTTP request") &&
        s.trace == [ParseURL, RunBody, BuildRequest, SendRequest])
    ensures env.parseURL(c.url).Success? && Produce(c.body).err.None? ==>
      EmitSpec(c, env).headers == ContentTypePolicy(c.headers, Produce(c.body).contentType)
  {
    var s := EmitSpec(c, env);
    match env.parseURL(c.url)
    case Failure(_) =>
    case Success(base) =>
      var target := WithQuery(base, c.params);
      var p := Produce(c.body);
      assert s == AfterParse(c, env, target);
      if p.err.None? {
        var headers := ContentTypePolicy(c.headers, p.contentType);
        assert s == AfterBody(c, env, target, p.reader, headers);
        if env.newRequest(c.ctx, Name(c.verb), target).None? {
          var req := Outbound(Name(c.verb), target, p.reader, c.ctx, Merge(map[], headers));
          assert s == AfterBuild(c, env, req, headers);
          match Do(c.client, env.network, req)
          case Failure(_) =>
          case Success(resp) =>
            var r := Respond(c.expectedCode, c.reader, resp);
            assert s.trace == UpToSend + r.1 && s.outcome == r.0;
            assert SendRequest in s.trace by { assert s.trace[3] == SendRequest; }
        }
      }
  }

  /** A call that reached the client: every earlier stage succeeded, and the request handed over is the built one. */
  lemma SentShape(c: Config, env: Env)
    requires EmitSpec(c, env).sent.Some?
    ensures env.parseURL(c.url).Success? && Produce(c.body).err.None?
    ensures env.newRequest(c.ctx, Name(c.verb), WithQuery(env.parseURL(c.url).value, c.params)).None?
    ensures var target := WithQuery(env.parseURL(c.url).value, c.params);
      var p := Produce(c.body);
      var headers := ContentTypePolicy(c.headers, p.contentType);
      EmitSpec(c, env) == AfterBuild(c, env, Outbound(Name(c.verb), target, p.reader, c.ctx, Merge(map[], headers)), headers)
  {
    var s := EmitSpec(c, env);
    match env.parseURL(c.url)
    case Failure(_) =>
    case Success(base) =>
      var target := WithQuery(base, c.params);
      var p := Produce(c.body);
      assert s == AfterParse(c, env, target);
      if p.err.None? {
        var headers := ContentTypePolicy(c.headers, p.contentType);
        assert s == AfterBody(c, env, target, p.reader, headers);
      }
  }

  /**
   * The query sent is the URL's own query with every parameter appended: it
   * decodes without error, and per key holds the URL's values followed by
   * `params[key]` in order. Nothing else of the URL changes.
   */
  lemma OutboundQuery(c: Config, env: Env)
    requires EmitSpec(c, env).sent.Some?
    ensures env.parseURL(c.url).Success?
    ensures EmitSpec(c, env).sent.value.target.location == env.parseURL(c.url).value.location
    ensures ParseQuery(EmitSpec(c, env).sent.value.target.rawQuery)
         == (Merge(Query(env.parseURL(c.url).value.rawQuery), c.params), false)
    ensures forall k :: (Get(Query(EmitSpec(c, env).sent.value.target.rawQuery), k)
         == Get(Query(env.parseURL(c.url).value.rawQuery), k) + Get(c.params, k))
  {
    var base := env.parseURL(c.url).value;
    var merged := Merge(Query(base.rawQuery), c.params);
    QueryWellFormed(base.rawQuery);
    MergeWellFormed(Query(base.rawQuery), c.params);
    ParseEncode(merged);
    SentShape(c, env);
    assert EmitSpec(c, env).sent.value.target == WithQuery(base, c.params);
  }

  /**
   * `URL.Query()` drops a malformed piece of the URL's own query without a
   * trace, so its pair is missing from the query sent.
   */
  lemma MalformedQueryDropped(c: Config, env: Env, piece: Bytes, rest: Bytes)
    requires EmitSpec(c, env).sent.Some?
    requires env.parseURL(c.url).Success? && env.parseURL(c.url).value.rawQuery == piece + [Amp] + rest
    requires forall i :: 0 <= i < |piece| ==> piece[i] != Amp
    requires Malformed(piece)
    ensures Query(EmitSpec(c, env).sent.value.target.rawQuery) == Merge(Query(rest), c.params)
  {
    OutboundQuery(c, env);
    DropsMalformedPiece(map[], piece, rest, false);
  }

  /** With no parameters, the query sent holds the same keys and values as the URL's own. */
  lemma NoParamsKeepsQuery(c: Config, env: Env)
    requires EmitSpec(c, env).sent.Some? && c.params == map[]
    ensures env.parseURL(c.url).Success?
    ensures Query(EmitSpec(c, env).sent.value.target.rawQuery) == Query(env.parseURL(c.url).value.rawQuery)
  {
    OutboundQuery(c, env);
    QueryWellFormed(env.parseURL(c.url).value.rawQuery);
    MergeEmpty(Query(env.parseURL(c.url).value.rawQuery));
  }

  /**
   * The request sent carries the method's name, the context, the produced
   * body, and every value of every header (after the Content-Type step) in
   * per-key order; a key without values is not copied.
   */
  lemma SentRequest(c: Config, env: Env)
    requires EmitSpec(c, env).sent.Some?
    ensures var s := EmitSpec(c, env);
      s.sent.value.verb == Name(c.verb) && s.sent.value.ctx == c.ctx && s.sent.value.body == Produce(c.body).reader
    ensures var s := EmitSpec(c, env);
      s.headers == ContentTypePolicy(c.headers, Produce(c.body).contentType)
    ensures var s := EmitSpec(c, env);
      forall k :: Get(s.sent.value.header, k) == Get(s.headers, k)
    ensures var s := EmitSpec(c, env);
      forall k :: k in s.sent.value.header <==> k in s.headers && s.headers[k] != []
  {
    SentShape(c, env);
  }

  /**
   * The Content-Type step: a key that already names the header (in any case)
   * is never overwritten, an empty hint adds nothing, and otherwise exactly
   * `Content-Type: hint` is added, after which the header is named.
   */
  lemma ContentTypeRule(h: Values, hint: Bytes)
    ensures HasContentType(h) ==> ContentTypePolicy(h, hint) == h
    ensures hint == [] ==> ContentTypePolicy(h, hint) == h
    ensures hint != [] && !HasContentType(h) ==>
      var r := ContentTypePolicy(h, hint);
      r.Keys == h.Keys + {ContentTypeKey} && Get(r, ContentTypeKey) == [hint] &&
      (forall k :: k != ContentTypeKey ==> Get(r, k) == Get(h, k)) && HasContentType(r)
  {
    if hint != [] && !HasContentType(h) {
      var r := ContentTypePolicy(h, hint);
      assert ToLower(ContentTypeKey) == ContentTypeLower;
      assert ContentTypeKey in r;
    }
  }

  /** Emitting the same request again does not add a second Content-Type. */
  lemma ContentTypeIdempotent(h: Values, hint: Bytes)
    ensures ContentTypePolicy(ContentTypePolicy(h, hint), hint) == ContentTypePolicy(h, hint)
  {
    ContentTypeRule(h, hint);
    ContentTypeRule(ContentTypePolicy(h, hint), hint);
  }

  /** A `ByReader` body gives no hint, so the headers are sent as the caller set them. */
  lemma ByReaderAddsNoContentType(c: Config, env: Env)
    requires c.body.ByReader?
    ensures EmitSpec(c, env).headers == c.headers
  {
    StagesShortCircuit(c, env);
    ContentTypeRule(c.headers, []);
  }

  /**
   * Once the client answered `resp`: a mismatching status (with a positive
   * expected code) returns `UnexpectedCode` with the status and the whole body
   * and skips the reader; otherwise a set reader runs exactly once and its
   * error is returned verbatim, and without one the call succeeds.
   */
  lemma StatusAndReader(c: Config, env: Env, resp: Response)
    requires EmitSpec(c, env).sent.Some?
    requires Do(c.client, env.network, EmitSpec(c, env).sent.value) == Success(resp)
    ensures var s := EmitSpec(c, env);
      c.expectedCode > 0 && resp.status != c.expectedCode ==>
        s.outcome == UnexpectedCode(resp.status, resp.body) && RunReader !in s.trace && ReadBody in s.trace
    ensures var s := EmitSpec(c, env);
      !(c.expectedCode > 0 && resp.status != c.expectedCode) ==>
        ReadBody !in s.trace &&
        multiset(s.trace)[RunReader] == (if c.reader.Some? then 1 else 0) &&
        (c.reader.None? ==> s.outcome == Ok) &&
        (c.reader.Some? && Read(c.reader.value, resp.body).None? ==> s.outcome == Ok) &&
        (c.reader.Some? && Read(c.reader.value, resp.body).Some? ==>
          s.outcome == ReaderErr(Read(c.reader.value, resp.body).value))
  {
    var s := EmitSpec(c, env);
    SentShape(c, env);
    var r := Respond(c.expectedCode, c.reader, resp);
    assert s.outcome == r.0 && s.trace == UpToSend + r.1;
    RespondSteps(c.expectedCode, c.reader, resp);
    AfterSend(r.1);
  }

  /** What `Respond` does, on its own: the status check first, then at most one reader run. */
  lemma RespondSteps(expectedCode: int, reader: Option<ResponseReader>, resp: Response)
    ensures var r := Respond(expectedCode, reader, resp);
      expectedCode > 0 && resp.status != expectedCode ==>
        r.0 == UnexpectedCode(resp.status, resp.body) && RunReader !in r.1 && ReadBody in r.1
    ensures var r := Respond(expectedCode, reader, resp);
      !(expectedCode > 0 && resp.status != expectedCode) ==>
        ReadBody !in r.1 &&
        multiset(r.1)[RunReader] == (if reader.Some? then 1 else 0) &&
        (reader.None? ==> r.0 == Ok) &&
        (reader.Some? && Read(reader.value, resp.body).None? ==> r.0 == Ok) &&
        (reader.Some? && Read(reader.value, resp.body).Some? ==> r.0 == ReaderErr(Read(reader.value, resp.body).value))
  {
  }

  /** The steps up to the client call read nothing, so what follows them decides every count. */
  lemma AfterSend(rest: seq<Stage>)
    ensures forall st :: multiset(UpToSend + rest)[st] == multiset(UpToSend)[st] + multiset(rest)[st]
    ensures ReadBody in UpToSend + rest <==> ReadBody in rest
    ensures RunReader in UpToSend + rest <==> RunReader in rest
    ensures multiset(UpToSend + rest)[RunReader] == multiset(rest)[RunReader]
    ensures multiset(UpToSend + rest)[CloseBody] == multiset(rest)[CloseBody]
    ensures rest != [] ==> (UpToSend + rest)[|UpToSend + rest| - 1] == rest[|rest| - 1]
  {
    assert multiset(UpToSend + rest) == multiset(UpToSend) + multiset(rest);
  }

  /** `UnexpectedCode` only comes from a positive expected code that the status missed; a code of 0 disables the check. */
  lemma UnexpectedCodeOnlyOnMismatch(c: Config, env: Env)
    ensures EmitSpec(c, env).outcome.UnexpectedCode? ==>
      c.expectedCode > 0 && EmitSpec(c, env).outcome.code != c.expectedCode && Delivered(c, env)
    ensures c.expectedCode <= 0 ==> !EmitSpec(c, env).outcome.UnexpectedCode?
  {
    var s := EmitSpec(c, env);
    if s.sent.None? {
      NotSentTrace(c, env);
    } else {
      SentShape(c, env);
      match Do(c.client, env.network, s.sent.value)
      case Failure(_) =>
        assert s.outcome.TransportErr?;
      case Success(resp) =>
        StatusAndReader(c, env, resp);
    }
  }

  /** A call that handed nothing to the client stopped at the URL, the body or the build. */
  lemma NotSentTrace(c: Config, env: Env)
    requires EmitSpec(c, env).sent.None?
    ensures var t := EmitSpec(c, env).trace;
      t == [ParseURL] || t == [ParseURL, RunBody] || t == [ParseURL, RunBody, BuildRequest]
    ensures var o := EmitSpec(c, env).outcome;
      o.ParseErr? || o.BodyErr? || o.BuildErr?
  {
    var s := EmitSpec(c, env);
    match env.parseURL(c.url)
    case Failure(_) =>
    case Success(base) =>
      var target := WithQuery(base, c.params);
      var p := Produce(c.body);
      assert s == AfterParse(c, env, target);
      if p.err.None? {
        var headers := ContentTypePolicy(c.headers, p.contentType);
        assert s == AfterBody(c, env, target, p.reader, headers);
      }
  }

  /** A call that was not answered stops somewhere before or at the client call. */
  lemma UndeliveredTrace(c: Config, env: Env)
    requires !Delivered(c, env)
    ensures CloseBody !in EmitSpec(c, env).trace
    ensures ReadBody !in EmitSpec(c, env).trace && RunReader !in EmitSpec(c, env).trace
  {
    var s := EmitSpec(c, env);
    if s.sent.None? {
      NotSentTrace(c, env);
    } else {
      SentShape(c, env);
      assert s.trace == UpToSend;
    }
    EarlyStages(s.trace);
  }

  /** None of the steps up to the client call touches the response body. */
  lemma EarlyStages(t: seq<Stage>)
    requires t == [ParseURL] || t == [ParseURL, RunBody] || t == [ParseURL, RunBody, BuildRequest] || t == UpToSend
    ensures CloseBody !in t && ReadBody !in t && RunReader !in t
  {
  }

  /** An answered call takes the steps up to the client call, then those of `Respond`. */
  lemma DeliveredTrace(c: Config, env: Env)
    requires Delivered(c, env)
    ensures EmitSpec(c, env).trace
         == UpToSend + Respond(c.expectedCode, c.reader, Do(c.client, env.network, EmitSpec(c, env).sent.value).value).1
  {
    StagesShortCircuit(c, env);
  }

  /** What follows the client's answer holds one close, as its last step. */
  lemma RespondCloses(expectedCode: int, reader: Option<ResponseReader>, resp: Response)
    ensures var rest := Respond(expectedCode, reader, resp).1;
      |rest| > 0 && rest[|rest| - 1] == CloseBody && multiset(rest)[CloseBody] == 1
  {
  }

  /**
   * The response body is closed exactly once when the client answered, as the
   * last step, and never when it did not.
   */
  lemma ClosedOnce(c: Config, env: Env)
    ensures multiset(EmitSpec(c, env).trace)[CloseBody] == if Delivered(c, env) then 1 else 0
    ensures Delivered(c, env) ==> EmitSpec(c, env).trace[|EmitSpec(c, env).trace| - 1] == CloseBody
  {
    var t := EmitSpec(c, env).trace;
    if Delivered(c, env) {
      var rest := Respond(c.expectedCode, c.reader, Do(c.client, env.network, EmitSpec(c, env).sent.value).value).1;
      DeliveredTrace(c, env);
      RespondCloses(c.expectedCode, c.reader, Do(c.client, env.network, EmitSpec(c, env).sent.value).value);
      AfterSend(rest);
    } else {
      UndeliveredTrace(c, env);
    }
  }

  /** The response body is read, by `io.ReadAll` or by the reader, only when the client answered. */
  lemma BodyReadOnlyWhenAnswered(c: Config, env: Env)
    ensures ReadBody in EmitSpec(c, env).trace || RunReader in EmitSpec(c, env).trace ==> Delivered(c, env)
  {
    if !Delivered(c, env) {
      UndeliveredTrace(c, env);
    }
  }

  /** With the test client of `WithHandlerFunc`, a request that is sent is always answered. */
  lemma TestClientAlwaysAnswers(c: Config, env: Env)
    requires c.client.TestClient?
    ensures !EmitSpec(c, env).outcome.TransportErr?
    ensures EmitSpec(c, env).sent.Some? ==> Delivered(c, env)
  {
    StagesShortCircuit(c, env);
  }

  /** `hasContentType`: walks the keys in any order and stops at the first match. */
  method FindContentType(headers: Values) returns (found: bool)
    ensures found == HasContentType(headers)
  {
    var todo := headers.Keys;
    while todo != {}
      invariant todo <= headers.Keys
      invariant forall k :: k in headers && k !in todo ==> ToLower(k) != ContentTypeLower
      decreases |todo|
    {
      var key :| key in todo;
      if ToLower(key) == ContentTypeLower {
        return true;
      }
      todo := todo - {key};
    }
    return false;
  }

  /** The inner loop: `Add(key, value)` for each value in order. */
  method AddValues(v: Values, key: Bytes, values: seq<Bytes>) returns (r: Values)
    ensures Get(r, key) == Get(v, key) + values
    ensures forall k :: k != key ==> Get(r, k) == Get(v, k)
    ensures forall k :: k in r <==> k in v || (k == key && values != [])
  {
    r := v;
    var i := 0;
    while i < |values|
      invariant 0 <= i <= |values|
      invariant Get(r, key) == Get(v, key) + values[..i]
      invariant forall k :: k != key ==> Get(r, k) == Get(v, k)
      invariant forall k :: k in r <==> k in v || (k == key && i > 0)
    {
      assert values[..i + 1] == values[..i] + [values[i]];
      r := Add(r, key, values[i]);
      i := i + 1;
    }
    assert values[..i] == values;
  }

  /**
   * The nested loops of `Emit`: for every key of `from`, in any order, `Add`
   * each of its values in order. Used for the query and for the headers.
   */
  method AddEach(into: Values, from: Values) returns (out: Values)
    ensures out == Merge(into, from)
  {
    out := into;
    var todo := from.Keys;
    while todo != {}
      invariant todo <= from.Keys
      invariant forall k :: Get(out, k) == Get(into, k) + (if k in todo then [] else Get(from, k))
      invariant forall k :: k in out <==> k in into || (k in from && k !in todo && from[k] != [])
      decreases |todo|
    {
      var key :| key in todo;
      out := AddValues(out, key, from[key]);
      todo := todo - {key};
    }
    MergeEquals(out, into, from);
  }

  /** A multi-map that agrees with `Merge(into, from)` on every key's values and on its key set is that merge. */
  lemma MergeEquals(out: Values, into: Values, from: Values)
    requires forall k :: Get(out, k) == Get(into, k) + Get(from, k)
    requires forall k :: k in out <==> k in into || (k in from && from[k] != [])
    ensures out == Merge(into, from)
  {
    var m := Merge(into, from);
    assert out.Keys == m.Keys;
    forall k | k in out
      ensures out[k] == m[k]
    {
      assert out[k] == Get(out, k);
      assert m[k] == Get(m, k);
    }
  }

  /** emit.go's Content-Type step on the request's own `headers` field. */
  method ApplyContentType(x: Request, hint: Bytes)
    modifies x`headers
    ensures x.headers == ContentTypePolicy(old(x.headers), hint)
  {
    if hint != [] {
      var has := FindContentType(x.headers);
      if !has {
        x.headers := x.headers[ContentTypeKey := [hint]];
      }
    }
  }

  /** Building, sending and checking, on the request's fields as they are after the Content-Type step. */
  method SendBuilt(x: Request, env: Env, target: Target, body: Option<Bytes>)
    returns (outcome: Outcome, trace: seq<Stage>, sent: Option<Outbound>)
    ensures AfterBody(x.Snapshot(), env, target, body, x.headers) == Exchange(outcome, trace, x.headers, sent)
  {
    sent := None;
    trace := [ParseURL, RunBody, BuildRequest];
    var verb := Name(x.verb);
    var buildErr := env.newRequest(x.ctx, verb, target);
    if buildErr.Some? {
      outcome := BuildErr(Wrapped(buildErr.value, "creating HTTP request"));
      return;
    }
    var header := AddEach(map[], x.headers);
    var req := Outbound(verb, target, body, x.ctx, header);

    trace := trace + [SendRequest];
    sent := Some(req);
    var answer := Do(x.client, env.network, req);
    if answer.Failure? {
      outcome := TransportErr(Wrapped(answer.error, "sending HTTP request"));
      return;
    }
    // from here on, `defer resp.Body.Close()` runs on the way out
    var resp := answer.value;
    if x.expectedCode > 0 && resp.status != x.expectedCode {
      trace := trace + [ReadBody, CloseBody];
      outcome := UnexpectedCode(resp.status, resp.body);
      return;
    }
    outcome := Ok;
    if x.reader.Some? {
      trace := trace + [RunReader];
      var e := Read(x.reader.value, resp.body);
      if e.Some? {
        outcome := ReaderErr(e.value);
      }
    }
    trace := trace + [CloseBody];
  }

  /** The stages after `AfterParse` do not look at the `headers` field, only at the headers passed along. */
  lemma AfterBodyIgnoresHeaders(c: Config, h: Values, env: Env, target: Target, body: Option<Bytes>, headers: Values)
    ensures AfterBody(c.(headers := h), env, target, body, headers) == AfterBody(c, env, target, body, headers)
  {
  }

  /** The body producer and the Content-Type step, then the rest. */
  method EmitBody(x: Request, env: Env, target: Target)
    returns (outcome: Outcome, trace: seq<Stage>, sent: Option<Outbound>)
    modifies x`headers
    ensures AfterParse(old(x.Snapshot()), env, target) == Exchange(outcome, trace, x.headers, sent)
  {
    ghost var c := x.Snapshot();
    var p := RunProducer(x.body);
    if p.err.Some? {
      return BodyErr(p.err.value), [ParseURL, RunBody], None;
    }
    ApplyContentType(x, p.contentType);
    assert x.Snapshot() == c.(headers := x.headers);
    outcome, trace, sent := SendBuilt(x, env, target, p.reader);
    AfterBodyIgnoresHeaders(c, x.headers, env, target, p.reader, x.headers);
  }

  /**
   * `x.Emit()`. The receiver is `x`; only its `headers` field changes, by the
   * Content-Type step. The result, the steps, the new headers and the request
   * sent are those of `EmitSpec` on the fields as they were.
   */
  method Emit(x: Request, env: Env) returns (outcome: Outcome, trace: seq<Stage>, sent: Option<Outbound>)
    modifies x`headers
    ensures EmitSpec(old(x.Snapshot()), env) == Exchange(outcome, trace, x.headers, sent)
  {
    var parsed := env.parseURL(x.url);
    if parsed.Failure? {
      return ParseErr(Wrapped(parsed.error, "parsing URL")), [ParseURL], None;
    }
    var query := AddEach(Query(parsed.value.rawQuery), x.params);
    var target := parsed.value.(rawQuery := Encode(query));
    outcome, trace, sent := EmitBody(x, env, target);
  }
}
