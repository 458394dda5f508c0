/** The closed set of HTTP methods a request can carry, and their wire names. */
module Methods {
  import opened Wrappers

  datatype Method = GET | HEAD | POST | PUT | DELETE | CONNECT | OPTIONS | TRACE | PATCH

  /** The integer value of the Go constant: `iota + 1`, so the zero value is no method. */
  function Code(m: Method): (c: int)
    ensures 1 <= c <= 9
  {
    match m
    case GET => 1
    case HEAD => 2
    case POST => 3
    case PUT => 4
    case DELETE => 5
    case CONNECT => 6
    case OPTIONS => 7
    case TRACE => 8
    case PATCH => 9
  }

  /** The constant with a given integer value, if there is one. */
  function FromCode(c: int): (m: Option<Method>)
    ensures m.Some? <==> 1 <= c <= 9
    ensures m.Some? ==> Code(m.value) == c
  {
    if c == 1 then Some(GET)
    else if c == 2 then Some(HEAD)
    else if c == 3 then Some(POST)
    else if c == 4 then Some(PUT)
    else if c == 5 then Some(DELETE)
    else if c == 6 then Some(CONNECT)
    else if c == 7 then Some(OPTIONS)
    else if c == 8 then Some(TRACE)
    else if c == 9 then Some(PATCH)
    else None
  }

  /** Distinct constants have distinct values and each value names its constant back. */
  lemma CodeInjective(m1: Method, m2: Method)
    ensures Code(m1) == Code(m2) ==> m1 == m2
    ensures FromCode(Code(m1)) == Some(m1)
  {
  }

  /** `methodMap`: the wire name of each method. */
  function Name(m: Method): (s: string)
    ensures |s| > 0
  {
    match m
    case GET => "GET"
    case HEAD => "HEAD"
    case POST => "POST"
    case PUT => "PUT"
    case DELETE => "DELETE"
    case CONNECT => "CONNECT"
    case OPTIONS => "OPTIONS"
    case TRACE => "TRACE"
    case PATCH => "PATCH"
  }

  /** The Go identifier each constant is declared under. */
  function Identifier(m: Method): (s: string) {
    match m
    case GET => "MethodGET"
    case HEAD => "MethodHEAD"
    case POST => "MethodPOST"
    case PUT => "MethodPUT"
    case DELETE => "MethodDELETE"
    case CONNECT => "MethodCONNECT"
    case OPTIONS => "MethodOPTIONS"
    case TRACE => "MethodTRACE"
    case PATCH => "MethodPATCH"
  }

  /** Each wire name is the suffix of its constant's identifier. */
  lemma NameIsSuffix(m: Method)
    ensures Identifier(m) == "Method" + Name(m)
  {
  }

  /** No two methods share a wire name. */
  lemma NameInjective(m1: Method, m2: Method)
    requires Name(m1) == Name(m2)
    ensures m1 == m2
  {
  }
}
