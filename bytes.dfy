/**
 * Go strings are immutable byte strings. The model keeps them as sequences of
 * bytes, because URL escaping and header-name matching work byte by byte.
 */
module Bytes {

  newtype byte = b: int | 0 <= b < 256

  type Bytes = seq<byte>

  /** The bytes of an ASCII literal written as a Dafny string (a character past one byte would read as 0). */
  function Lit(s: string): (r: Bytes)
    ensures |r| == |s|
  {
    seq(|s|, i requires 0 <= i < |s| => if s[i] as int < 256 then s[i] as int as byte else 0)
  }

  /** The bytes of a concatenation are the concatenated bytes. */
  lemma LitAppend(a: string, b: string)
    ensures Lit(a + b) == Lit(a) + Lit(b)
  {
  }

  /** ASCII upper-case letters are lowered; every other byte is kept. */
  function LowerByte(b: byte): (r: byte)
    ensures 65 <= b <= 90 ==> r as int == b as int + 32
    ensures !(65 <= b <= 90) ==> r == b
  {
    if 65 <= b <= 90 then b + 32 else b
  }

  /** Byte-wise lower-casing of ASCII letters. */
  function ToLower(s: Bytes): (r: Bytes)
    ensures |r| == |s|
    ensures forall i :: 0 <= i < |s| ==> r[i] == LowerByte(s[i])
  {
    seq(|s|, i requires 0 <= i < |s| => LowerByte(s[i]))
  }

  /** `a` spells `t` up to the case of ASCII letters; `t` is written in lower case. */
  predicate EqualFold(a: Bytes, t: Bytes) {
    |a| == |t| && forall i :: 0 <= i < |a| ==> a[i] == t[i] || (97 <= t[i] <= 122 && a[i] as int == t[i] as int - 32)
  }

  /** Lower-casing `a` gives the lower-case `t` exactly when `a` is `t` with any of its letters capitalised. */
  lemma LowerMatches(a: Bytes, t: Bytes)
    requires forall i :: 0 <= i < |t| ==> !(65 <= t[i] <= 90)
    ensures ToLower(a) == t <==> EqualFold(a, t)
  {
    if ToLower(a) == t {
      forall i | 0 <= i < |a|
        ensures a[i] == t[i] || (97 <= t[i] <= 122 && a[i] as int == t[i] as int - 32)
      {
        assert LowerByte(a[i]) == t[i];
      }
    }
    if EqualFold(a, t) {
      assert forall i :: 0 <= i < |a| ==> ToLower(a)[i] == t[i];
    }
  }

  /** Go's string ordering: byte-wise lexicographic, a proper prefix first. */
  predicate LexLessEq(a: Bytes, b: Bytes)
    decreases |a|
  {
    a == [] || (b != [] && (a[0] < b[0] || (a[0] == b[0] && LexLessEq(a[1..], b[1..]))))
  }

  lemma {:induction false} LexReflexive(a: Bytes)
    ensures LexLessEq(a, a)
    decreases |a|
  {
    if a != [] { LexReflexive(a[1..]); }
  }

  lemma {:induction false} LexTotal(a: Bytes, b: Bytes)
    ensures LexLessEq(a, b) || LexLessEq(b, a)
    decreases |a|
  {
    if a != [] && b != [] && a[0] == b[0] { LexTotal(a[1..], b[1..]); }
  }

  lemma {:induction false} LexAntisymmetric(a: Bytes, b: Bytes)
    requires LexLessEq(a, b) && LexLessEq(b, a)
    ensures a == b
    decreases |a|
  {
    if a != [] {
      LexAntisymmetric(a[1..], b[1..]);
      assert a == [a[0]] + a[1..] && b == [b[0]] + b[1..];
    }
  }

  lemma {:induction false} LexTransitive(a: Bytes, b: Bytes, c: Bytes)
    requires LexLessEq(a, b) && LexLessEq(b, c)
    ensures LexLessEq(a, c)
    decreases |a|
  {
    if a != [] && a[0] == b[0] && b[0] == c[0] { LexTransitive(a[1..], b[1..], c[1..]); }
  }

  /** `m` is at most every element of `s`. */
  predicate LowerBound(m: Bytes, s: set<Bytes>) {
    forall x :: x in s ==> LexLessEq(m, x)
  }

  /** Every non-empty finite set of strings has a least element. */
  lemma {:induction false} LeastExists(s: set<Bytes>)
    requires s != {}
    ensures exists m :: m in s && LowerBound(m, s)
    decreases |s|
  {
    var y :| y in s;
    if s == {y} {
      LexReflexive(y);
      assert y in s && LowerBound(y, s);
    } else {
      LeastExists(s - {y});
      var m :| m in s - {y} && LowerBound(m, s - {y});
      LeastWithOneMore(s, y, m);
    }
  }

  /** The least of `s - {y}` and `y` is the least of `s`. */
  lemma LeastWithOneMore(s: set<Bytes>, y: Bytes, m: Bytes)
    requires y in s && m in s - {y} && LowerBound(m, s - {y})
    ensures exists w :: w in s && LowerBound(w, s)
  {
    LexTotal(m, y);
    if LexLessEq(m, y) {
      assert m in s && LowerBound(m, s);
    } else {
      forall x | x in s ensures LexLessEq(y, x) {
        if x == y { LexReflexive(y); } else { LexTransitive(y, m, x); }
      }
      assert y in s && LowerBound(y, s);
    }
  }

  /** The least element of a non-empty set, in Go's string order. */
  function Least(s: set<Bytes>): (m: Bytes)
    requires s != {}
    ensures m in s && forall x :: x in s ==> LexLessEq(m, x)
  {
    LeastExists(s);
    AntisymmetricAll();
    var m :| m in s && LowerBound(m, s); m
  }

  lemma AntisymmetricAll()
    ensures forall a, b :: LexLessEq(a, b) && LexLessEq(b, a) ==> a == b
  {
    forall a, b | LexLessEq(a, b) && LexLessEq(b, a) ensures a == b { LexAntisymmetric(a, b); }
  }

  /** A sequence of strings in strictly increasing Go order. */
  predicate StrictlySorted(ks: seq<Bytes>) {
    forall i, j :: 0 <= i < j < |ks| ==> ks[i] != ks[j] && LexLessEq(ks[i], ks[j])
  }

  /** The elements of a finite set in increasing order, as `slices.Sort` leaves them. */
  function SortedKeys(s: set<Bytes>): (ks: seq<Bytes>)
    ensures |ks| == |s|
    ensures forall k :: k in ks <==> k in s
    ensures StrictlySorted(ks)
    decreases |s|
  {
    if s == {} then []
    else
      var m := Least(s);
      var rest := SortedKeys(s - {m});
      SortedCons(m, rest, s);
      [m] + rest
  }

  /** Putting the least element in front of the sorted rest keeps the order strict. */
  lemma SortedCons(m: Bytes, rest: seq<Bytes>, s: set<Bytes>)
    requires StrictlySorted(rest) && (forall k :: k in rest <==> k in s - {m})
    requires forall x :: x in s ==> LexLessEq(m, x)
    ensures StrictlySorted([m] + rest)
  {
    var ks := [m] + rest;
    forall i, j | 0 <= i < j < |ks| ensures ks[i] != ks[j] && LexLessEq(ks[i], ks[j]) {
      if i == 0 {
        assert ks[j] == rest[j - 1] && rest[j - 1] in rest;
      } else {
        assert ks[i] == rest[i - 1] && ks[j] == rest[j - 1];
      }
    }
  }

  lemma SortedPair(a: Bytes, b: Bytes)
    requires LexLessEq(a, b) && a != b
    ensures SortedKeys({a, b}) == [a, b]
  {
    var m := Least({a, b});
    if m == b { LexAntisymmetric(a, b); }
    assert {a, b} - {a} == {b};
    assert SortedKeys({b}) == [b];
  }
}
