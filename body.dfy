/**
 * Body codecs: the producers that give a request its body and a Content-Type
 * hint, and the readers that consume a response body.
 */
module Body {
  import opened Wrappers
  import opened Bytes
  import opened Errors
  import opened UrlValues

  const JsonContentType: Bytes := Lit("application/json")
  const FormContentType: Bytes := Lit("application/x-www-form-urlencoded")

  /** What a producer returns, Go's `(io.Reader, string, error)`: the reader is nil or the bytes it yields. */
  datatype Produced = Produced(reader: Option<Bytes>, contentType: Bytes, err: Option<Error>)

  /** A `RequestBody`: the zero-argument producer `Emit` calls once. */
  datatype RequestBody =
    | NoBody                                    // the default of `New`
    | EncodeAsJSON(marshal: Result<Bytes, Error>)  // the data, as `json.Marshal` renders or rejects it
    | EncodeAsURL(data: map<Bytes, Bytes>)      // each value already rendered with `%v`
    | ByReader(r: Option<Bytes>)
    | CustomBody(result: Produced)              // any other producer, by what it returns

  /** The multi-map `EncodeAsURL` fills: every key of `data` with its one value. */
  function FormValues(data: map<Bytes, Bytes>): (v: Values)
    ensures v.Keys == data.Keys
    ensures forall k :: k in data ==> v[k] == [data[k]]
  {
    map k | k in data :: [data[k]]
  }

  /** Calling the producer. */
  function Produce(b: RequestBody): (p: Produced)
    ensures b.NoBody? ==> p == Produced(None, [], None)
    ensures b.EncodeAsJSON? && b.marshal.Success? ==>
      p == Produced(Some(b.marshal.value), JsonContentType, None)
    ensures b.EncodeAsJSON? && b.marshal.Failure? ==>
      p == Produced(None, [], Some(Wrapped(b.marshal.error, "marshaling body as json")))
    ensures b.EncodeAsURL? ==> p.err == None && p.contentType == FormContentType && p.reader.Some?
    ensures b.ByReader? ==> p == Produced(b.r, [], None)
  {
    match b
    case NoBody => Produced(None, [], None)
    case EncodeAsJSON(marshal) =>
      (match marshal
       case Success(raw) => Produced(Some(raw), JsonContentType, None)
       case Failure(e) => Produced(None, [], Some(Wrapped(e, "marshaling body as json"))))
    case EncodeAsURL(data) => Produced(Some(Encode(FormValues(data))), FormContentType, None)
    case ByReader(r) => Produced(r, [], None)
    case CustomBody(result) => result
  }

  /** The loop of `EncodeAsURL`: `values.Add(key, value)` for each entry, in whatever order the map is walked. */
  method FillForm(data: map<Bytes, Bytes>) returns (values: Values)
    ensures values == FormValues(data)
  {
    values := map[];
    var todo := data.Keys;
    while todo != {}
      invariant FilledExcept(values, data, todo)
      decreases |todo|
    {
      var key :| key in todo;
      FillStep(values, data, todo, key);
      values := Add(values, key, data[key]);
      todo := todo - {key};
    }
    FormValuesOf(values, data);
  }

  /** Every entry of `data` except those in `todo` has been added, each once. */
  predicate FilledExcept(values: Values, data: map<Bytes, Bytes>, todo: set<Bytes>) {
    todo <= data.Keys && values.Keys == data.Keys - todo &&
    forall k :: k in values ==> Get(values, k) == [data[k]]
  }

  /** Adding one more entry of `data` keeps the loop's invariant. */
  lemma FillStep(values: Values, data: map<Bytes, Bytes>, todo: set<Bytes>, key: Bytes)
    requires FilledExcept(values, data, todo) && key in todo
    ensures FilledExcept(Add(values, key, data[key]), data, todo - {key})
  {
  }

  /** A multi-map holding exactly the keys of `data`, each with its one value, is `FormValues(data)`. */
  lemma FormValuesOf(values: Values, data: map<Bytes, Bytes>)
    requires FilledExcept(values, data, {})
    ensures values == FormValues(data)
  {
    forall k | k in values
      ensures values[k] == FormValues(data)[k]
    {
      assert values[k] == Get(values, k);
    }
  }

  /** The closure `EncodeAsURL` returns: the filled values, encoded. */
  method ProduceForm(data: map<Bytes, Bytes>) returns (p: Produced)
    ensures p == Produce(EncodeAsURL(data))
  {
    var values := FillForm(data);
    p := Produced(Some(Encode(values)), FormContentType, None);
  }

  /** Calling whichever producer a request holds. */
  method RunProducer(b: RequestBody) returns (p: Produced)
    ensures p == Produce(b)
  {
    if b.EncodeAsURL? {
      p := ProduceForm(b.data);
    } else {
      p := Produce(b);
    }
  }

  /** Decoding the form body as `application/x-www-form-urlencoded` gives back every pair, with no error. */
  lemma FormBodyRoundTrip(data: map<Bytes, Bytes>)
    ensures Produce(EncodeAsURL(data)).reader.Some?
    ensures ParseQuery(Produce(EncodeAsURL(data)).reader.value) == (FormValues(data), false)
  {
    ParseEncode(FormValues(data));
  }

  /** Two unreserved words around a space, then `ü` in UTF-8, then a third word: the space becomes `+`, each byte of `ü` a `%XX`. */
  lemma EscapeWordsAndUmlaut(a: Bytes, b: Bytes, c: Bytes)
    requires AllUnreserved(a) && AllUnreserved(b) && AllUnreserved(c)
    ensures QueryEscape(a + ([Space] + (b + ([0xC3] + ([0xBC] + c)))))
         == a + ([Plus] + (b + ([Percent, 67, 51] + ([Percent, 66, 67] + c))))
  {
    EscapeUnreserved(c);
    EscapeCons(0xBC, c, c);
    EscapeCons(0xC3, [0xBC] + c, EscapeByte(0xBC) + c);
    EscapeKeptPrefix(b, [0xC3] + ([0xBC] + c), EscapeByte(0xC3) + (EscapeByte(0xBC) + c));
    EscapeCons(Space, b + ([0xC3] + ([0xBC] + c)), b + (EscapeByte(0xC3) + (EscapeByte(0xBC) + c)));
    EscapeKeptPrefix(a, [Space] + (b + ([0xC3] + ([0xBC] + c))),
      EscapeByte(Space) + (b + (EscapeByte(0xC3) + (EscapeByte(0xBC) + c))));
    assert EscapeByte(Space) == [Plus];
    assert EscapeByte(0xC3) == [Percent, 67, 51];
    assert EscapeByte(0xBC) == [Percent, 66, 67];
  }

  /**
   * A two-entry form body whose keys and first value are unreserved and whose
   * second value is two words around a space, `ü` in UTF-8 and a third word.
   */
  lemma FormTwoKeys(data: map<Bytes, Bytes>, k1: Bytes, x1: Bytes, k2: Bytes, a: Bytes, b: Bytes, c: Bytes)
    requires data == map[k1 := x1, k2 := a + ([Space] + (b + ([0xC3] + ([0xBC] + c))))]
    requires LexLessEq(k1, k2) && k1 != k2
    requires AllUnreserved(k1) && AllUnreserved(x1) && AllUnreserved(k2)
    requires AllUnreserved(a) && AllUnreserved(b) && AllUnreserved(c)
    ensures Produce(EncodeAsURL(data)) == Produced(Some((k1 + [Equals] + x1) + [Amp] +
      (k2 + [Equals] + (a + ([Plus] + (b + ([Percent, 67, 51] + ([Percent, 66, 67] + c))))))), FormContentType, None)
  {
    var x2 := a + ([Space] + (b + ([0xC3] + ([0xBC] + c))));
    assert FormValues(data) == map[k1 := [x1], k2 := [x2]];
    EncodeTwoKeys(k1, x1, k2, x2);
    EscapeUnreserved(k1);
    EscapeUnreserved(x1);
    EscapeUnreserved(k2);
    EscapeWordsAndUmlaut(a, b, c);
  }

  /** The words of the worked example below are unreserved, and its keys are in order. */
  lemma FormExampleWords(color: Bytes, blue: Bytes, text: Bytes, hello: Bytes, g: Bytes, nter: Bytes)
    requires color == Lit("color") && blue == Lit("blue") && text == Lit("text")
    requires hello == Lit("Hello") && g == Lit("G") && nter == Lit("nter")
    ensures LexLessEq(color, text) && color != text
    ensures AllUnreserved(color) && AllUnreserved(blue) && AllUnreserved(text)
    ensures AllUnreserved(hello) && AllUnreserved(g) && AllUnreserved(nter)
  {
    assert color[0] < text[0];
    assert AllUnreserved(color);
    assert AllUnreserved(blue);
    assert AllUnreserved(text);
    assert AllUnreserved(hello);
    assert AllUnreserved(g);
    assert AllUnreserved(nter);
  }

  /** `Hello Günter` split into its words, its space and the two bytes of `ü`. */
  lemma FormExampleValue(hello: Bytes, g: Bytes, nter: Bytes)
    requires hello == Lit("Hello") && g == Lit("G") && nter == Lit("nter")
    ensures Lit("Hello G") + [0xC3, 0xBC] + Lit("nter") == hello + ([Space] + (g + ([0xC3] + ([0xBC] + nter))))
  {
  }

  /** `color=blue&text=Hello+G%C3%BCnter` split into the same pieces. */
  lemma FormExampleBody(color: Bytes, blue: Bytes, text: Bytes, hello: Bytes, g: Bytes, nter: Bytes)
    requires color == Lit("color") && blue == Lit("blue") && text == Lit("text")
    requires hello == Lit("Hello") && g == Lit("G") && nter == Lit("nter")
    ensures Lit("color=blue&text=Hello+G%C3%BCnter") == (color + [Equals] + blue) + [Amp] +
      (text + [Equals] + (hello + ([Plus] + (g + ([Percent, 67, 51] + ([Percent, 66, 67] + nter))))))
  {
    var left, right := "color=blue&", "text=Hello+G%C3%BCnter";
    assert left + right == "color=blue&text=Hello+G%C3%BCnter";
    LitAppend(left, right);
    FormExampleLeft(color, blue);
    FormExampleRight(text, hello, g, nter);
  }

  /** `color=blue&`, the first pair and its separator. */
  lemma FormExampleLeft(color: Bytes, blue: Bytes)
    requires color == Lit("color") && blue == Lit("blue")
    ensures Lit("color=blue&") == (color + [Equals] + blue) + [Amp]
  {
  }

  /** `text=Hello+G%C3%BCnter`, the second pair. */
  lemma FormExampleRight(text: Bytes, hello: Bytes, g: Bytes, nter: Bytes)
    requires text == Lit("text") && hello == Lit("Hello") && g == Lit("G") && nter == Lit("nter")
    ensures Lit("text=Hello+G%C3%BCnter") == text + [Equals] + (hello + ([Plus] + (g + ([Percent, 67, 51] + ([Percent, 66, 67] + nter)))))
  {
  }

  /**
   * The worked example of the form producer: `{color: blue, text: Hello Günter}`
   * is sent as `color=blue&text=Hello+G%C3%BCnter`.
   */
  lemma FormBodyExample(data: map<Bytes, Bytes>, body: Bytes)
    requires data == map[Lit("color") := Lit("blue"), Lit("text") := Lit("Hello G") + [0xC3, 0xBC] + Lit("nter")]
    requires body == Lit("color=blue&text=Hello+G%C3%BCnter")
    ensures Produce(EncodeAsURL(data)) == Produced(Some(body), FormContentType, None)
  {
    FormExampleWords(Lit("color"), Lit("blue"), Lit("text"), Lit("Hello"), Lit("G"), Lit("nter"));
    FormExampleValue(Lit("Hello"), Lit("G"), Lit("nter"));
    FormExampleBody(Lit("color"), Lit("blue"), Lit("text"), Lit("Hello"), Lit("G"), Lit("nter"));
    FormTwoKeys(data, Lit("color"), Lit("blue"), Lit("text"), Lit("Hello"), Lit("G"), Lit("nter"));
  }

  /** A `ResponseReader`: what it does with the body, and the error it returns. */
  datatype ResponseReader =
    | DecodeAsJSON(decode: Bytes -> Option<Error>)  // `json.NewDecoder(r).Decode(out)` on the body
    | CopyStream(copy: Bytes -> Option<Error>)      // `io.Copy(w, r)` from the body
    | CustomReader(read: Bytes -> Option<Error>)    // any other reader

  /** Running a reader on the whole response body; none of them closes it. */
  function Read(rd: ResponseReader, body: Bytes): (e: Option<Error>)
    ensures rd.DecodeAsJSON? ==>
      e == (match rd.decode(body) case None => None case Some(c) => Some(Wrapped(c, "decoding body as json")))
    ensures rd.CopyStream? ==>
      e == (match rd.copy(body) case None => None case Some(c) => Some(Wrapped(c, "coping body to writer")))
    ensures rd.CustomReader? ==> e == rd.read(body)
  {
    match rd
    case DecodeAsJSON(decode) =>
      (match decode(body) case None => None case Some(c) => Some(Wrapped(c, "decoding body as json")))
    case CopyStream(copy) =>
      (match copy(body) case None => None case Some(c) => Some(Wrapped(c, "coping body to writer")))
    case CustomReader(read) => read(body)
  }
}
