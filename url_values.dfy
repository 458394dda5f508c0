/**
 * The part of Go's `net/url` that the request builder relies on: the
 * `url.Values` multi-map, `Values.Add`, `Values.Encode`, `QueryEscape`, and
 * the decoder `ParseQuery` with `QueryUnescape`, which the outbound query
 * string and the form body are read back with.
 */
module UrlValues {
  import opened Wrappers
  import opened Bytes

  /** A key mapped to its ordered values (`url.Values`, `http.Header`, `map[string][]string`). */
  type Values = map<Bytes, seq<Bytes>>

  const Amp: byte := 38      // '&'
  const Equals: byte := 61   // '='
  const Semicolon: byte := 59  // ';'
  const Percent: byte := 37  // '%'
  const Plus: byte := 43     // '+'
  const Space: byte := 32    // ' '

  /** `v[k]` in Go: the values under `k`, or nil when `k` is absent. */
  function Get(v: Values, k: Bytes): (r: seq<Bytes>)
    ensures k !in v ==> r == []
    ensures k in v ==> r == v[k]
  {
    if k in v then v[k] else []
  }

  /** `v[k] = append(v[k], x)`: the one operation every multi-map here is built with. */
  function Add(v: Values, k: Bytes, x: Bytes): (r: Values)
    ensures r.Keys == v.Keys + {k}
    ensures Get(r, k) == Get(v, k) + [x]
    ensures forall j :: j != k ==> Get(r, j) == Get(v, j)
  {
    v[k := Get(v, k) + [x]]
  }

  /** Every key holds at least one value, as in any map built only by `Add`. */
  predicate WellFormed(v: Values) {
    forall k :: k in v ==> v[k] != []
  }

  /**
   * The multi-map obtained by adding, into `q`, every value of every key of `p`
   * in order: per key, `q`'s values first, then `p`'s. A key whose `p` entry is
   * empty is not created.
   */
  function Merge(q: Values, p: Values): (r: Values)
    ensures forall k :: Get(r, k) == Get(q, k) + Get(p, k)
    ensures forall k :: k in r <==> k in q || (k in p && p[k] != [])
  {
    map k | k in q.Keys + p.Keys && (k in q || p[k] != []) :: Get(q, k) + Get(p, k)
  }

  lemma MergeWellFormed(q: Values, p: Values)
    requires WellFormed(q)
    ensures WellFormed(Merge(q, p))
  {
  }

  lemma MergeEmpty(q: Values)
    requires WellFormed(q)
    ensures Merge(q, map[]) == q
  {
    var r := Merge(q, map[]);
    assert forall k :: k in r ==> r[k] == Get(r, k) == q[k];
  }

  // ---------------------------------------------------------------------------
  // QueryEscape (section 2.3 of RFC 3986 for what is kept, section 2.1 for %XX)

  /** ALPHA / DIGIT / "-" / "." / "_" / "~": the unreserved characters of section 2.3 of RFC 3986. */
  predicate Unreserved(c: byte) {
    (97 <= c <= 122) || (65 <= c <= 90) || (48 <= c <= 57) || c == 45 || c == 95 || c == 46 || c == 126
  }

  /** The upper-case hexadecimal digit of a nibble. */
  function UpperHex(n: int): (d: byte)
    requires 0 <= n < 16
    ensures n < 10 ==> d as int == 48 + n
    ensures 10 <= n ==> d as int == 65 + n - 10
  {
    if n < 10 then (48 + n) as byte else (55 + n) as byte
  }

  predicate IsHex(c: byte) {
    (48 <= c <= 57) || (97 <= c <= 102) || (65 <= c <= 70)
  }

  /** The value of a hexadecimal digit, either case. */
  function UnHex(c: byte): (n: int)
    requires IsHex(c)
    ensures 0 <= n < 16
  {
    if c <= 57 then c as int - 48 else if c <= 70 then c as int - 55 else c as int - 87
  }

  lemma UnHexUpperHex(n: int)
    requires 0 <= n < 16
    ensures IsHex(UpperHex(n)) && UnHex(UpperHex(n)) == n
  {
  }

  /** One byte as `QueryEscape` writes it: kept, `+` for a space, or `%XX`. */
  function EscapeByte(c: byte): (r: Bytes)
  {
    if Unreserved(c) then [c]
    else if c == Space then [Plus]
    else [Percent, UpperHex(c as int / 16), UpperHex(c as int % 16)]
  }

  /** `url.QueryEscape`. */
  function QueryEscape(s: Bytes): (r: Bytes)
  {
    if s == [] then [] else EscapeByte(s[0]) + QueryEscape(s[1..])
  }

  /** No `&`, `=` or `;` survives escaping, so escaped keys and values can be joined and cut again. */
  lemma {:induction false} EscapeAlphabet(s: Bytes)
    ensures forall i :: 0 <= i < |QueryEscape(s)| ==> QueryEscape(s)[i] != Amp && QueryEscape(s)[i] != Equals && QueryEscape(s)[i] != Semicolon
  {
    if s != [] {
      EscapeAlphabet(s[1..]);
      var e, t := EscapeByte(s[0]), QueryEscape(s[1..]);
      assert forall i :: 0 <= i < |e| ==> e[i] != Amp && e[i] != Equals && e[i] != Semicolon;
      assert forall i :: |e| <= i < |e + t| ==> (e + t)[i] == t[i - |e|];
    }
  }

  /** `url.QueryUnescape`: `+` becomes a space, `%XX` (either case) a byte; a malformed escape is an error. */
  function QueryUnescape(s: Bytes): (r: Option<Bytes>)
    decreases |s|
  {
    if s == [] then Some([])
    else if s[0] == Percent then
      if |s| < 3 || !IsHex(s[1]) || !IsHex(s[2]) then None
      else
        match QueryUnescape(s[3..])
        case None => None
        case Some(t) => Some([(UnHex(s[1]) * 16 + UnHex(s[2])) as byte] + t)
    else
      match QueryUnescape(s[1..])
      case None => None
      case Some(t) => Some([if s[0] == Plus then Space else s[0]] + t)
  }

  lemma UnescapeEscapeByte(c: byte, t: Bytes)
    ensures QueryUnescape(EscapeByte(c) + t) ==
      match QueryUnescape(t)
      case None => None
      case Some(u) => Some([c] + u)
  {
    var e := EscapeByte(c) + t;
    if Unreserved(c) || c == Space {
      assert e[1..] == t;
    } else {
      UnHexUpperHex(c as int / 16);
      UnHexUpperHex(c as int % 16);
      assert e[3..] == t;
    }
  }

  lemma {:induction false} EscapeAppend(a: Bytes, b: Bytes)
    ensures QueryEscape(a + b) == QueryEscape(a) + QueryEscape(b)
  {
    if a != [] {
      assert (a + b)[1..] == a[1..] + b;
      EscapeAppend(a[1..], b);
    } else {
      assert a + b == b;
    }
  }

  predicate AllUnreserved(s: Bytes) {
    forall i :: 0 <= i < |s| ==> Unreserved(s[i])
  }

  lemma {:induction false} EscapeUnreserved(s: Bytes)
    requires AllUnreserved(s)
    ensures QueryEscape(s) == s
  {
    if s != [] {
      EscapeUnreserved(s[1..]);
      assert [s[0]] + s[1..] == s;
    }
  }

  lemma EscapeCons(c: byte, t: Bytes, r: Bytes)
    requires QueryEscape(t) == r
    ensures QueryEscape([c] + t) == EscapeByte(c) + r
  {
    assert ([c] + t)[1..] == t;
  }

  lemma EscapeKeptPrefix(a: Bytes, t: Bytes, r: Bytes)
    requires AllUnreserved(a) && QueryEscape(t) == r
    ensures QueryEscape(a + t) == a + r
  {
    EscapeAppend(a, t);
    EscapeUnreserved(a);
  }

  /** Unescaping undoes escaping, for every byte string. */
  lemma {:induction false} UnescapeEscape(s: Bytes)
    ensures QueryUnescape(QueryEscape(s)) == Some(s)
  {
    if s != [] {
      UnescapeEscape(s[1..]);
      UnescapeEscapeByte(s[0], QueryEscape(s[1..]));
      assert [s[0]] + s[1..] == s;
    }
  }

  // ---------------------------------------------------------------------------
  // Values.Encode

  /** `(k, x)` for each value `x` of `xs`, in order. */
  function PairsOfKey(k: Bytes, xs: seq<Bytes>): (ps: seq<(Bytes, Bytes)>)
    ensures |ps| == |xs|
    ensures forall i :: 0 <= i < |ps| ==> ps[i] == (k, xs[i])
  {
    if xs == [] then [] else [(k, xs[0])] + PairsOfKey(k, xs[1..])
  }

  /** The pairs of `v`, key by key in the order of `ks`, each key's values in order. */
  function Pairs(v: Values, ks: seq<Bytes>): (ps: seq<(Bytes, Bytes)>)
  {
    if ks == [] then [] else PairsOfKey(ks[0], Get(v, ks[0])) + Pairs(v, ks[1..])
  }

  /** `QueryEscape(k) + "=" + QueryEscape(x)`. */
  function EncodePair(p: (Bytes, Bytes)): (r: Bytes) {
    QueryEscape(p.0) + [Equals] + QueryEscape(p.1)
  }

  /** The encoded pairs joined by `&`. */
  function Join(ps: seq<(Bytes, Bytes)>): (r: Bytes) {
    if ps == [] then []
    else if |ps| == 1 then EncodePair(ps[0])
    else EncodePair(ps[0]) + [Amp] + Join(ps[1..])
  }

  /** `url.Values.Encode`: keys sorted, one `key=value` per value, joined by `&`. */
  function Encode(v: Values): (r: Bytes) {
    Join(Pairs(v, SortedKeys(v.Keys)))
  }

  /** A two-key multi-map with one value each encodes as its two pairs, smaller key first. */
  lemma EncodeTwoKeys(k1: Bytes, x1: Bytes, k2: Bytes, x2: Bytes)
    requires LexLessEq(k1, k2) && k1 != k2
    ensures Encode(map[k1 := [x1], k2 := [x2]]) == EncodePair((k1, x1)) + [Amp] + EncodePair((k2, x2))
  {
    var v := map[k1 := [x1], k2 := [x2]];
    assert v.Keys == {k1, k2};
    SortedPair(k1, k2);
    var ks := SortedKeys(v.Keys);
    assert ks == [k1, k2];
    assert PairsOfKey(k1, [x1]) == [(k1, x1)];
    assert PairsOfKey(k2, [x2]) == [(k2, x2)];
    assert ks[1..] == [k2] && ks[1..][1..] == [];
    assert Pairs(v, [k2]) == [(k2, x2)];
    assert Pairs(v, ks) == [(k1, x1), (k2, x2)];
    assert Join([(k1, x1), (k2, x2)]) == EncodePair((k1, x1)) + [Amp] + Join([(k2, x2)]);
  }

  /** A one-key multi-map with one value encodes as that one pair. */
  lemma EncodeOneKey(k: Bytes, x: Bytes)
    ensures Encode(map[k := [x]]) == EncodePair((k, x))
  {
    var v := map[k := [x]];
    assert v.Keys == {k};
    var ks := SortedKeys(v.Keys);
    assert ks[0] in v.Keys;
    assert ks == [k];
    assert PairsOfKey(k, [x]) == [(k, x)];
    assert Pairs(v, ks) == [(k, x)];
  }

  // ---------------------------------------------------------------------------
  // ParseQuery

  datatype Cut = Cut(before: Bytes, after: Bytes, found: bool)

  /** `strings.Cut(s, sep)` for a one-byte separator. */
  function CutAt(s: Bytes, sep: byte): (c: Cut)
    ensures c.found ==> s == c.before + [sep] + c.after
    ensures !c.found ==> c.before == s && c.after == []
    ensures forall i :: 0 <= i < |c.before| ==> c.before[i] != sep
  {
    if s == [] then Cut([], [], false)
    else if s[0] == sep then Cut([], s[1..], true)
    else
      var c := CutAt(s[1..], sep);
      Cut([s[0]] + c.before, c.after, c.found)
  }

  /**
   * The loop of `url.parseQuery`: pieces between `&` are read one by one; one
   * holding `;` sets the error and is skipped, an empty one is skipped, the rest
   * are cut at the first `=` and both halves unescaped; a piece that does not
   * unescape sets the error and is skipped.
   */
  function ParseFrom(m: Values, s: Bytes, err: bool): (r: (Values, bool))
    decreases |s|
  {
    if s == [] then (m, err)
    else
      var piece := CutAt(s, Amp);
      if Semicolon in piece.before then ParseFrom(m, piece.after, true)
      else if piece.before == [] then ParseFrom(m, piece.after, err)
      else
        var kv := CutAt(piece.before, Equals);
        match (QueryUnescape(kv.before), QueryUnescape(kv.after))
        case (Some(k), Some(x)) => ParseFrom(Add(m, k, x), piece.after, err)
        case _ => ParseFrom(m, piece.after, true)
  }

  /** `url.ParseQuery`: the values read and whether an error was met. */
  function ParseQuery(s: Bytes): (r: (Values, bool))
  {
    ParseFrom(map[], s, false)
  }

  /** `URL.Query()`: the values of `ParseQuery`, the error dropped. */
  function Query(rawQuery: Bytes): (v: Values) {
    ParseQuery(rawQuery).0
  }

  lemma {:induction false} ParseFromWellFormed(m: Values, s: Bytes, err: bool)
    requires WellFormed(m)
    ensures WellFormed(ParseFrom(m, s, err).0)
    decreases |s|
  {
    if s != [] {
      var piece := CutAt(s, Amp);
      if Semicolon in piece.before || piece.before == [] {
        ParseFromWellFormed(m, piece.after, true);
        ParseFromWellFormed(m, piece.after, err);
      } else {
        var kv := CutAt(piece.before, Equals);
        match (QueryUnescape(kv.before), QueryUnescape(kv.after))
        case (Some(k), Some(x)) => ParseFromWellFormed(Add(m, k, x), piece.after, err);
        case _ => ParseFromWellFormed(m, piece.after, true);
      }
    }
  }

  /** What a query decodes to never has a key without values. */
  lemma QueryWellFormed(raw: Bytes)
    ensures WellFormed(Query(raw))
  {
    ParseFromWellFormed(map[], raw, false);
  }

  /** The error flag only travels along: the values decoded do not depend on it. */
  lemma {:induction false} ParseFromIgnoresErr(m: Values, s: Bytes, e1: bool, e2: bool)
    ensures ParseFrom(m, s, e1).0 == ParseFrom(m, s, e2).0
    decreases |s|
  {
    if s != [] {
      var piece := CutAt(s, Amp);
      if Semicolon in piece.before {
        ParseFromIgnoresErr(m, piece.after, true, true);
      } else if piece.before == [] {
        ParseFromIgnoresErr(m, piece.after, e1, e2);
      } else {
        var kv := CutAt(piece.before, Equals);
        match (QueryUnescape(kv.before), QueryUnescape(kv.after))
        case (Some(k), Some(x)) => ParseFromIgnoresErr(Add(m, k, x), piece.after, e1, e2);
        case _ => ParseFromIgnoresErr(m, piece.after, true, true);
      }
    }
  }

  /** A piece `url.parseQuery` rejects: it holds `;`, or its key or its value does not unescape. */
  predicate Malformed(piece: Bytes) {
    var kv := CutAt(piece, Equals);
    Semicolon in piece || QueryUnescape(kv.before).None? || QueryUnescape(kv.after).None?
  }

  /**
   * A malformed piece is dropped: decoding goes on after it with nothing added
   * and the error set, so `URL.Query()` loses that pair without a trace.
   */
  lemma DropsMalformedPiece(m: Values, piece: Bytes, rest: Bytes, err: bool)
    requires forall i :: 0 <= i < |piece| ==> piece[i] != Amp
    requires Malformed(piece)
    ensures ParseFrom(m, piece + [Amp] + rest, err) == ParseFrom(m, rest, true)
    ensures ParseFrom(m, piece, err) == (m, true)
    ensures Query(piece + [Amp] + rest) == Query(rest)
  {
    CutPrefix(piece, rest, Amp);
    CutNone(piece, Amp);
    ParseFromIgnoresErr(map[], rest, true, false);
  }

  /** `a=%z…` is malformed when `z` does not start with a hex digit. */
  lemma BadEscapePiece(a: Bytes, z: Bytes)
    requires forall i :: 0 <= i < |a| ==> a[i] != Amp && a[i] != Equals
    requires forall i :: 0 <= i < |z| ==> z[i] != Amp
    requires z != [] && !IsHex(z[0])
    ensures var piece := a + [Equals] + ([Percent] + z);
      Malformed(piece) && forall i :: 0 <= i < |piece| ==> piece[i] != Amp
  {
    CutPrefix(a, [Percent] + z, Equals);
    assert QueryUnescape([Percent] + z).None?;
  }

  /** One unreserved pair, last in the query, is decoded as that one key with its one value. */
  lemma OnlyPair(b: Bytes, x: Bytes, err: bool)
    requires AllUnreserved(b) && AllUnreserved(x)
    ensures ParseFrom(map[], b + [Equals] + x, err) == (map[b := [x]], err)
  {
    EscapeUnreserved(b);
    EscapeUnreserved(x);
    assert EncodePair((b, x)) == b + [Equals] + x;
    ParseLastPiece(map[], (b, x), err);
    var none: Values := map[];
    var r := Add(none, b, x);
    assert r.Keys == {b} && r[b] == Get(r, b) == [x];
    assert r == map[b := [x]];
  }

  /** `a=%z…&b=x`, where `%z…` is no escape: only `b=x` is decoded, and the error is set. */
  lemma DropsBadEscape(a: Bytes, z: Bytes, b: Bytes, x: Bytes)
    requires forall i :: 0 <= i < |a| ==> a[i] != Amp && a[i] != Equals
    requires forall i :: 0 <= i < |z| ==> z[i] != Amp
    requires z != [] && !IsHex(z[0])
    requires AllUnreserved(b) && AllUnreserved(x)
    ensures ParseQuery(a + [Equals, Percent] + z + [Amp] + b + [Equals] + x) == (map[b := [x]], true)
  {
    var piece := a + [Equals] + ([Percent] + z);
    var rest := b + [Equals] + x;
    BadEscapePiece(a, z);
    assert a + [Equals, Percent] + z + [Amp] + b + [Equals] + x == piece + [Amp] + rest;
    DropsMalformedPiece(map[], piece, rest, false);
    OnlyPair(b, x, true);
  }

  /** `a=%zz&b=1` decodes to `b=1` alone, with the error set. */
  lemma MalformedEscapeExample(a: Bytes, z: Bytes, b: Bytes, one: Bytes)
    requires a == Lit("a") && z == Lit("zz") && b == Lit("b") && one == Lit("1")
    ensures ParseQuery(a + [Equals, Percent] + z + [Amp] + b + [Equals] + one) == (map[b := [one]], true)
  {
    assert !IsHex(z[0]);
    assert AllUnreserved(b) && AllUnreserved(one);
    DropsBadEscape(a, z, b, one);
  }

  // ---------------------------------------------------------------------------
  // Decoding what Encode wrote

  /** Adding the pairs one by one from the left. */
  function AddPairs(m: Values, ps: seq<(Bytes, Bytes)>): (r: Values)
    decreases ps
  {
    if ps == [] then m else AddPairs(Add(m, ps[0].0, ps[0].1), ps[1..])
  }

  /** Cutting `a + [sep] + b` where `a` has no `sep` gives back `a` and `b`. */
  lemma {:induction false} CutPrefix(a: Bytes, b: Bytes, sep: byte)
    requires forall i :: 0 <= i < |a| ==> a[i] != sep
    ensures CutAt(a + [sep] + b, sep) == Cut(a, b, true)
  {
    if a == [] {
      assert ([] + [sep] + b)[1..] == b;
    } else {
      CutPrefix(a[1..], b, sep);
      assert (a + [sep] + b)[1..] == a[1..] + [sep] + b;
      assert [a[0]] + a[1..] == a;
    }
  }

  /** Cutting `a` where `a` has no `sep` gives back all of `a`. */
  lemma {:induction false} CutNone(a: Bytes, sep: byte)
    requires forall i :: 0 <= i < |a| ==> a[i] != sep
    ensures CutAt(a, sep) == Cut(a, [], false)
  {
    if a != [] {
      CutNone(a[1..], sep);
      assert [a[0]] + a[1..] == a;
    }
  }

  lemma EncodePairFacts(p: (Bytes, Bytes))
    ensures EncodePair(p) != []
    ensures forall i :: 0 <= i < |EncodePair(p)| ==> EncodePair(p)[i] != Amp && EncodePair(p)[i] != Semicolon
    ensures CutAt(EncodePair(p), Equals) == Cut(QueryEscape(p.0), QueryEscape(p.1), true)
  {
    var e := EncodePair(p);
    var a, b := QueryEscape(p.0), QueryEscape(p.1);
    EscapeAlphabet(p.0);
    EscapeAlphabet(p.1);
    assert e == a + [Equals] + b;
    forall i | 0 <= i < |e| ensures e[i] != Amp && e[i] != Semicolon {
      if i < |a| { assert e[i] == a[i]; }
      else if i > |a| { assert e[i] == b[i - |a| - 1]; }
    }
    CutPrefix(a, b, Equals);
  }

  /** Decoding one encoded pair, at the end of the query, adds exactly that pair. */
  lemma ParseLastPiece(m: Values, p: (Bytes, Bytes), err: bool)
    ensures ParseFrom(m, EncodePair(p), err) == (Add(m, p.0, p.1), err)
  {
    EncodePairFacts(p);
    var e := EncodePair(p);
    UnescapeEscape(p.0);
    UnescapeEscape(p.1);
    assert Semicolon !in e;
    CutNone(e, Amp);
  }

  /** Decoding one encoded pair followed by `&` adds exactly that pair and goes on after the `&`. */
  lemma ParseNextPiece(m: Values, p: (Bytes, Bytes), rest: Bytes, err: bool)
    ensures ParseFrom(m, EncodePair(p) + [Amp] + rest, err) == ParseFrom(Add(m, p.0, p.1), rest, err)
  {
    EncodePairFacts(p);
    var e := EncodePair(p);
    UnescapeEscape(p.0);
    UnescapeEscape(p.1);
    assert Semicolon !in e;
    CutPrefix(e, rest, Amp);
  }

  lemma {:induction false} ParseJoin(m: Values, ps: seq<(Bytes, Bytes)>, err: bool)
    ensures ParseFrom(m, Join(ps), err) == (AddPairs(m, ps), err)
    decreases ps
  {
    if |ps| == 1 {
      ParseLastPiece(m, ps[0], err);
    } else if |ps| > 1 {
      ParseNextPiece(m, ps[0], Join(ps[1..]), err);
      ParseJoin(Add(m, ps[0].0, ps[0].1), ps[1..], err);
    }
  }

  lemma {:induction false} AddPairsAppend(m: Values, a: seq<(Bytes, Bytes)>, b: seq<(Bytes, Bytes)>)
    ensures AddPairs(m, a + b) == AddPairs(AddPairs(m, a), b)
    decreases a
  {
    if a == [] {
      assert a + b == b;
    } else {
      assert (a + b)[0] == a[0];
      assert (a + b)[1..] == a[1..] + b;
      AddPairsAppend(Add(m, a[0].0, a[0].1), a[1..], b);
    }
  }

  /** Overwriting a key just added to is overwriting it in the original. */
  lemma AddThenSet(m: Values, k: Bytes, x: Bytes, xs: seq<Bytes>)
    ensures Add(m, k, x)[k := Get(Add(m, k, x), k) + xs] == m[k := Get(m, k) + ([x] + xs)]
  {
    assert Get(Add(m, k, x), k) + xs == Get(m, k) + ([x] + xs);
  }

  lemma {:induction false} AddPairsOfKey(m: Values, k: Bytes, xs: seq<Bytes>)
    requires xs != []
    ensures AddPairs(m, PairsOfKey(k, xs)) == m[k := Get(m, k) + xs]
    decreases xs
  {
    var m' := Add(m, k, xs[0]);
    assert PairsOfKey(k, xs) == [(k, xs[0])] + PairsOfKey(k, xs[1..]);
    assert AddPairs(m, PairsOfKey(k, xs)) == AddPairs(m', PairsOfKey(k, xs[1..]));
    if |xs| == 1 {
      assert xs == [xs[0]];
    } else {
      AddPairsOfKey(m', k, xs[1..]);
      AddThenSet(m, k, xs[0], xs[1..]);
      assert [xs[0]] + xs[1..] == xs;
    }
  }

  /** `m + {k: v[k] | k in ks}`. */
  function Restore(m: Values, v: Values, ks: seq<Bytes>): (r: Values)
    requires forall i :: 0 <= i < |ks| ==> ks[i] in v
  {
    m + map k | k in ks :: v[k]
  }

  lemma RestoreStep(m: Values, v: Values, ks: seq<Bytes>)
    requires ks != []
    requires forall i :: 0 <= i < |ks| ==> ks[i] in v
    ensures Restore(m, v, ks) == Restore(m[ks[0] := v[ks[0]]], v, ks[1..])
  {
    var k, rest := ks[0], ks[1..];
    assert forall j :: j in ks <==> j == k || j in rest;
    var a, b := Restore(m, v, ks), Restore(m[k := v[k]], v, rest);
    assert a.Keys == b.Keys;
    forall j | j in a
      ensures a[j] == b[j]
    {
      if j in rest {
        assert a[j] == v[j] && b[j] == v[j];
      } else if j == k {
        assert a[j] == v[k] && b[j] == v[k];
      }
    }
  }

  /** Adding the pairs of distinct keys, with fresh keys, puts each key's values back. */
  lemma {:induction false} AddPairsRebuilds(m: Values, v: Values, ks: seq<Bytes>)
    requires WellFormed(v)
    requires forall i :: 0 <= i < |ks| ==> ks[i] in v && ks[i] !in m
    requires forall i, j :: 0 <= i < j < |ks| ==> ks[i] != ks[j]
    ensures AddPairs(m, Pairs(v, ks)) == Restore(m, v, ks)
    decreases ks
  {
    if ks != [] {
      var k, rest := ks[0], ks[1..];
      assert Pairs(v, ks) == PairsOfKey(k, v[k]) + Pairs(v, rest);
      AddPairsAppend(m, PairsOfKey(k, v[k]), Pairs(v, rest));
      AddPairsOfKey(m, k, v[k]);
      assert Get(m, k) + v[k] == v[k];
      var m' := m[k := v[k]];
      forall i | 0 <= i < |rest| ensures rest[i] in v && rest[i] !in m' {
        assert rest[i] == ks[i + 1];
      }
      forall i, j | 0 <= i < j < |rest| ensures rest[i] != rest[j] {
        assert rest[i] == ks[i + 1] && rest[j] == ks[j + 1];
      }
      AddPairsRebuilds(m', v, rest);
      RestoreStep(m, v, ks);
    }
  }

  /** The sorted keys of `v` are its keys, each once. */
  lemma SortedKeysOf(v: Values, none: Values)
    requires none == map[]
    ensures forall i :: 0 <= i < |SortedKeys(v.Keys)| ==> SortedKeys(v.Keys)[i] in v && SortedKeys(v.Keys)[i] !in none
    ensures forall i, j :: 0 <= i < j < |SortedKeys(v.Keys)| ==> SortedKeys(v.Keys)[i] != SortedKeys(v.Keys)[j]
  {
  }

  /** Restoring every key of `v`, in any order, onto nothing gives `v`. */
  lemma RestoreAll(v: Values, none: Values, ks: seq<Bytes>)
    requires none == map[]
    requires forall k :: k in ks <==> k in v
    ensures Restore(none, v, ks) == v
  {
    var r := Restore(none, v, ks);
    assert r.Keys == v.Keys;
    forall k | k in r
      ensures r[k] == v[k]
    {
    }
  }

  /** Decoding what `Values.Encode` writes gives back the multi-map, with no error. */
  lemma ParseEncode(v: Values)
    requires WellFormed(v)
    ensures ParseQuery(Encode(v)) == (v, false)
  {
    var ks := SortedKeys(v.Keys);
    var none: Values := map[];
    SortedKeysOf(v, none);
    RestoreAll(v, none, ks);
    ParseJoin(none, Pairs(v, ks), false);
    AddPairsRebuilds(none, v, ks);
  }
}
