/** The closed vocabulary of HTTP verbs a route may be registered under
    (the string-backed enum App\Modules\HttpMethod). */
module HttpMethods {

  datatype Option<T> = None | Some(value: T)

  /** The nine enum cases. */
  datatype HttpMethod = GET | POST | PUT | DELETE | PATCH | HEAD | OPTIONS | CONNECT | TRACE

  /** The backing string of a case (`$method->value`). */
  function Value(m: HttpMethod): string
  {
    match m
    case GET => "GET"
    case POST => "POST"
    case PUT => "PUT"
    case DELETE => "DELETE"
    case PATCH => "PATCH"
    case HEAD => "HEAD"
    case OPTIONS => "OPTIONS"
    case CONNECT => "CONNECT"
    case TRACE => "TRACE"
  }

  /** The cases in declaration order (`HttpMethod::cases()`). */
  const Cases: seq<HttpMethod> := [GET, POST, PUT, DELETE, PATCH, HEAD, OPTIONS, CONNECT, TRACE]

  /** The case whose backing string is exactly `s`, if any (`HttpMethod::tryFrom`):
      the comparison is byte-exact, with no case folding or trimming. */
  function TryFrom(s: string): (r: Option<HttpMethod>)
    ensures r.Some? ==> Value(r.value) == s
    ensures r.None? ==> forall m :: Value(m) != s
  {
    if s == "GET" then Some(GET)
    else if s == "POST" then Some(POST)
    else if s == "PUT" then Some(PUT)
    else if s == "DELETE" then Some(DELETE)
    else if s == "PATCH" then Some(PATCH)
    else if s == "HEAD" then Some(HEAD)
    else if s == "OPTIONS" then Some(OPTIONS)
    else if s == "CONNECT" then Some(CONNECT)
    else if s == "TRACE" then Some(TRACE)
    else None
  }

  predicate IsUpperAscii(c: char)
  {
    'A' <= c <= 'Z'
  }

  /** `Cases` lists every case exactly once, nine in all. */
  lemma CasesAreExactlyTheNine()
    ensures |Cases| == 9
    ensures forall m: HttpMethod :: m in Cases
    ensures forall i, j :: 0 <= i < j < |Cases| ==> Cases[i] != Cases[j]
  {
    forall m: HttpMethod
      ensures m in Cases
    {
      match m
      case GET => assert Cases[0] == m;
      case POST => assert Cases[1] == m;
      case PUT => assert Cases[2] == m;
      case DELETE => assert Cases[3] == m;
      case PATCH => assert Cases[4] == m;
      case HEAD => assert Cases[5] == m;
      case OPTIONS => assert Cases[6] == m;
      case CONNECT => assert Cases[7] == m;
      case TRACE => assert Cases[8] == m;
    }
  }

  /** Distinct cases have distinct backing strings. */
  lemma ValueInjective(a: HttpMethod, b: HttpMethod)
    ensures Value(a) == Value(b) ==> a == b
  {
  }

  /** Mapping a case to its backing string and back gives the same case,
      and a string maps to a case exactly when it is that case's backing string. */
  lemma TryFromValue(m: HttpMethod, s: string)
    ensures TryFrom(Value(m)) == Some(m)
    ensures TryFrom(s) == Some(m) <==> Value(m) == s
  {
    ValueInjective(TryFrom(Value(m)).value, m);
  }

  /** Every backing string is non-empty and consists of upper-case ASCII letters. */
  lemma ValueIsUpperCase(m: HttpMethod)
    ensures |Value(m)| > 0
    ensures forall i :: 0 <= i < |Value(m)| ==> IsUpperAscii(Value(m)[i])
  {
  }

  /** A token holding any lower-case letter, such as "get", names no case. */
  lemma {:induction false} LowerCaseTokenIsNoMethod(s: string, k: nat)
    requires k < |s| && 'a' <= s[k] <= 'z'
    ensures TryFrom(s) == None
    ensures forall m :: Value(m) != s
  {
    forall m: HttpMethod
      ensures Value(m) != s
    {
      ValueIsUpperCase(m);
      if |Value(m)| == |s| {
        assert IsUpperAscii(Value(m)[k]);
        assert Value(m)[k] != s[k];
      }
    }
  }
}
