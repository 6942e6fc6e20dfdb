/** The client's flat error taxonomy (GiantswarmError) and the message table
    `errorString` that turns an error kind into its log message. */
module Errors {
  import opened Options

  /** The eleven error kinds, in the order (and so with the enum values 0..10)
      in which giantswarmerror.hpp declares them. */
  datatype Error =
    | InvalidJsonFromCache
    | InvalidJsonFromAPI
    | NotAllowedToRequestURI
    | ClientError
    | ServerError
    | ResponseContainsRedirection
    | NotFound
    | UnexpectedResponseStatus
    | LoginRequired
    | LogoutRequired
    | ResponseStatusMismatch

  /** What a C++ member function of the client does: it either returns a value
      or throws a GiantswarmError carrying one error kind. */
  datatype Outcome<+T> = Returned(value: T) | Raised(error: Error)

  /** Every error kind, listed by its enum value. */
  const AllErrors: seq<Error> := [
    InvalidJsonFromCache, InvalidJsonFromAPI, NotAllowedToRequestURI, ClientError,
    ServerError, ResponseContainsRedirection, NotFound, UnexpectedResponseStatus,
    LoginRequired, LogoutRequired, ResponseStatusMismatch
  ]

  /** The integer value of an error kind in the C++ enum. */
  function Code(e: Error): (c: nat)
    ensures c < |AllErrors| && AllErrors[c] == e
  {
    match e
    case InvalidJsonFromCache => 0
    case InvalidJsonFromAPI => 1
    case NotAllowedToRequestURI => 2
    case ClientError => 3
    case ServerError => 4
    case ResponseContainsRedirection => 5
    case NotFound => 6
    case UnexpectedResponseStatus => 7
    case LoginRequired => 8
    case LogoutRequired => 9
    case ResponseStatusMismatch => 10
  }

  /** `GiantswarmError::errorString`: the log message of an error kind. */
  function ErrorString(e: Error): (s: string)
    ensures |s| > 0
  {
    match e
    case InvalidJsonFromCache => "Received invalid JSON from cache!"
    case InvalidJsonFromAPI => "Received invalid JSON from API!"
    case NotAllowedToRequestURI => "Not allowed to request given URI!"
    case ClientError => "An client error occurred!"
    case ServerError => "An server error occurred!"
    case ResponseContainsRedirection => "Response contains unhandled redirection!"
    case NotFound => "Requested URI not found!"
    case UnexpectedResponseStatus => "Unexpected response status!"
    case LoginRequired => "Login required!"
    case LogoutRequired => "Logout required!"
    case ResponseStatusMismatch => "Received status_code does not match expected status!"
  }

  /** `errorString` applied to the raw integer stored in the `error` field: the
      switch covers the eleven declared values, anything else reaches the
      trailing `return QString()` and yields the empty string. */
  function MessageOfCode(code: int): (s: string)
    ensures s == "" <==> !(0 <= code < |AllErrors|)
    ensures 0 <= code < |AllErrors| ==> s == ErrorString(AllErrors[code])
  {
    if 0 <= code < |AllErrors| then ErrorString(AllErrors[code]) else ""
  }

  /** The first error kind in `errors` whose message is `s`, if any. */
  function ErrorOfMessageIn(errors: seq<Error>, s: string): (r: Option<Error>)
    ensures r.Some? ==> r.value in errors && ErrorString(r.value) == s
    ensures r.None? ==> forall e :: e in errors ==> ErrorString(e) != s
  {
    if errors == [] then None
    else if ErrorString(errors[0]) == s then Some(errors[0])
    else ErrorOfMessageIn(errors[1..], s)
  }

  /** Recovers the error kind from a log message. */
  function ErrorOfMessage(s: string): Option<Error>
  {
    ErrorOfMessageIn(AllErrors, s)
  }

  /** The fallback `return QString()` is never reached from a declared kind. */
  lemma FallbackUnreachable(e: Error)
    ensures MessageOfCode(Code(e)) == ErrorString(e) != ""
  {
  }

  /** The messages are pairwise distinct, so a message names its error kind:
      reading the message back gives the kind that produced it. */
  lemma {:induction false} MessageRecoversError(e: Error)
    ensures ErrorOfMessage(ErrorString(e)) == Some(e)
  {
    MessagesDistinct(AllErrors[..Code(e)], e);
    assert AllErrors == AllErrors[..Code(e)] + AllErrors[Code(e)..];
    FirstMatchAfterPrefix(AllErrors[..Code(e)], AllErrors[Code(e)..], ErrorString(e));
  }

  /** No error kind listed before `e` in the enum shares its message. */
  lemma MessagesDistinct(before: seq<Error>, e: Error)
    requires before == AllErrors[..Code(e)]
    ensures forall d :: d in before ==> ErrorString(d) != ErrorString(e)
  {
  }

  lemma {:induction false} FirstMatchAfterPrefix(prefix: seq<Error>, suffix: seq<Error>, s: string)
    requires forall d :: d in prefix ==> ErrorString(d) != s
    requires |suffix| > 0 && ErrorString(suffix[0]) == s
    ensures ErrorOfMessageIn(prefix + suffix, s) == Some(suffix[0])
  {
    if prefix == [] {
      assert prefix + suffix == suffix;
    } else {
      assert (prefix + suffix)[1..] == prefix[1..] + suffix;
      FirstMatchAfterPrefix(prefix[1..], suffix, s);
    }
  }

  /** Corollary: two error kinds with the same message are the same kind; in
      particular the cache and API parse failures are told apart. */
  lemma ErrorStringInjective(a: Error, b: Error)
    requires ErrorString(a) == ErrorString(b)
    ensures a == b
  {
    MessageRecoversError(a);
    MessageRecoversError(b);
  }
}
