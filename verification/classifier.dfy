/** The catch clauses shared by both connection paths: a single pass over
    the failure's class and message text that either names a known cause or
    lets the failure through unchanged. */
module Classifier {
  import opened Base
  import opened Text
  import opened Decimal
  import opened LoadModel

  const VERSION_PREFIX: string := "The version"
  const AUTHENTICATION_PREFIX: string := "Authentication"
  const CONNECTION_REFUSED: string := "Connection refused"
  const UNKNOWN_HOST_EXCEPTION: string := "java.net.UnknownHostException"
  const NULL_HOST_NAME: string := "Host name may not be null"
  const CONNECT_TIMED_OUT: string := "connect timed out"

  /** Translates a failure raised while obtaining a client for `host:port`. */
  function Classify(f: Failure, host: string, port: int): (r: Raised)
    ensures r.Propagated? ==> r.failure == f
    ensures r.LoadError? ==> r.cause == f
    ensures r.LoadError? && r.kind.VersionMismatch? ==> f.IllegalState?
    ensures r.LoadError? && r.kind.BadCredentials? ==> f.Server?
    ensures r.LoadError? && (r.kind.Unavailable? || r.kind.UnknownHost? || r.kind.ConnectTimeout?) ==>
              f.Client? && f.causeMsg.Some?
    ensures r.LoadError? && (r.kind.Unavailable? || r.kind.ConnectTimeout?) ==> r.kind.host == host && r.kind.port == port
    ensures r.LoadError? && r.kind.UnknownHost? ==> r.kind.host == host
    ensures f.Server? && f.status == STATUS_UNAUTHORIZED ==> r == LoadError(BadCredentials, f)
    ensures f.IllegalArgument? || f.Other? || (f.Client? && f.causeMsg.None?) ==> r == Propagated(f)
  {
    match f
    case IllegalState(msg) =>
      if msg.Some? && StartsWith(msg.value, VERSION_PREFIX) then LoadError(VersionMismatch, f)
      else Propagated(f)
    case Server(status, msg) =>
      if status == STATUS_UNAUTHORIZED || (msg.Some? && StartsWith(msg.value, AUTHENTICATION_PREFIX))
      then LoadError(BadCredentials, f)
      else Propagated(f)
    case Client(causeMsg) =>
      if causeMsg.None? then Propagated(f)
      else if Contains(causeMsg.value, CONNECTION_REFUSED) then LoadError(Unavailable(host, port), f)
      else if Contains(causeMsg.value, UNKNOWN_HOST_EXCEPTION) || Contains(causeMsg.value, NULL_HOST_NAME)
      then LoadError(UnknownHost(host), f)
      else if Contains(causeMsg.value, CONNECT_TIMED_OUT) then LoadError(ConnectTimeout(host, port), f)
      else Propagated(f)
    case IllegalArgument(_) => Propagated(f)
    case Other(_, _) => Propagated(f)
  }

  /** The failure signatures, stated declaratively over occurrences of the
      tested phrases rather than through the scanning `Contains`. */
  ghost predicate SignalsVersionMismatch(f: Failure) {
    f.IllegalState? && f.msg.Some? && StartsWith(f.msg.value, VERSION_PREFIX)
  }

  ghost predicate SignalsBadCredentials(f: Failure) {
    f.Server? && (f.status == STATUS_UNAUTHORIZED || (f.msg.Some? && StartsWith(f.msg.value, AUTHENTICATION_PREFIX)))
  }

  ghost predicate CauseMentions(f: Failure, phrase: string) {
    f.Client? && f.causeMsg.Some? && IsSubstring(phrase, f.causeMsg.value)
  }

  ghost predicate SignalsRefused(f: Failure) {
    CauseMentions(f, CONNECTION_REFUSED)
  }

  ghost predicate SignalsUnknownHost(f: Failure) {
    CauseMentions(f, UNKNOWN_HOST_EXCEPTION) || CauseMentions(f, NULL_HOST_NAME)
  }

  ghost predicate SignalsTimeout(f: Failure) {
    CauseMentions(f, CONNECT_TIMED_OUT)
  }

  /** Each domain error is produced exactly when its signature is present and
      no earlier rule applies; everything else is rethrown unchanged. */
  lemma ClassifyBySignature(f: Failure, host: string, port: int)
    ensures Classify(f, host, port) == LoadError(VersionMismatch, f) <==> SignalsVersionMismatch(f)
    ensures Classify(f, host, port) == LoadError(BadCredentials, f) <==> SignalsBadCredentials(f)
    ensures Classify(f, host, port) == LoadError(Unavailable(host, port), f) <==> SignalsRefused(f)
    ensures Classify(f, host, port) == LoadError(UnknownHost(host), f) <==>
              !SignalsRefused(f) && SignalsUnknownHost(f)
    ensures Classify(f, host, port) == LoadError(ConnectTimeout(host, port), f) <==>
              !SignalsRefused(f) && !SignalsUnknownHost(f) && SignalsTimeout(f)
    ensures Classify(f, host, port) == Propagated(f) <==>
              !SignalsVersionMismatch(f) && !SignalsBadCredentials(f) && !SignalsRefused(f) &&
              !SignalsUnknownHost(f) && !SignalsTimeout(f)
  {
    if f.Client? && f.causeMsg.Some? {
      var m := f.causeMsg.value;
      ContainsIsSubstring(m, CONNECTION_REFUSED);
      ContainsIsSubstring(m, UNKNOWN_HOST_EXCEPTION);
      ContainsIsSubstring(m, NULL_HOST_NAME);
      ContainsIsSubstring(m, CONNECT_TIMED_OUT);
    }
  }

  const VERSION_MISMATCH_MESSAGE: string := "The version of hugegraph-client and hugegraph-server don't match"
  const BAD_CREDENTIALS_MESSAGE: string := "Incorrect username or password"
  const UNAVAILABLE_HEAD: string := "The service "
  const UNAVAILABLE_TAIL: string := " is unavailable"
  const UNKNOWN_HOST_HEAD: string := "The host "
  const UNKNOWN_HOST_TAIL: string := " is unknown"
  const TIMEOUT_HEAD: string := "Connect service "
  const TIMEOUT_TAIL: string := " timeout, please check service is available and network is unobstructed"

  /** The message of the `LoadException` raised for each kind, with the
      `%s` placeholders filled in. */
  function Message(k: LoadErrorKind): (m: string) {
    match k
    case VersionMismatch => VERSION_MISMATCH_MESSAGE
    case BadCredentials => BAD_CREDENTIALS_MESSAGE
    case Unavailable(h, p) => UNAVAILABLE_HEAD + (h + ":" + IntToString(p)) + UNAVAILABLE_TAIL
    case UnknownHost(h) => UNKNOWN_HOST_HEAD + h + UNKNOWN_HOST_TAIL
    case ConnectTimeout(h, p) => TIMEOUT_HEAD + (h + ":" + IntToString(p)) + TIMEOUT_TAIL
  }

  lemma InfixOccurs(pre: string, x: string, post: string)
    ensures OccursAt(pre + x + post, x, |pre|)
  {
    assert (pre + x + post)[|pre|..|pre| + |x|] == x;
  }

  /** Messages about a connection name the offending host, and the port
      where there is one. */
  lemma MessageNamesEndpoint(k: LoadErrorKind)
    ensures (k.Unavailable? || k.UnknownHost? || k.ConnectTimeout?) ==> IsSubstring(k.host, Message(k))
    ensures (k.Unavailable? || k.ConnectTimeout?) ==> IsSubstring(k.host + ":" + IntToString(k.port), Message(k))
  {
    match k
    case VersionMismatch =>
    case BadCredentials =>
    case UnknownHost(h) =>
      InfixOccurs(UNKNOWN_HOST_HEAD, h, UNKNOWN_HOST_TAIL);
    case Unavailable(h, p) =>
      var rest := ":" + IntToString(p);
      assert h + ":" + IntToString(p) == h + rest;
      InfixOccurs(UNAVAILABLE_HEAD, h + rest, UNAVAILABLE_TAIL);
      InfixOccurs(UNAVAILABLE_HEAD, h, rest + UNAVAILABLE_TAIL);
      assert UNAVAILABLE_HEAD + (h + rest) + UNAVAILABLE_TAIL == UNAVAILABLE_HEAD + h + (rest + UNAVAILABLE_TAIL);
    case ConnectTimeout(h, p) =>
      var rest := ":" + IntToString(p);
      assert h + ":" + IntToString(p) == h + rest;
      InfixOccurs(TIMEOUT_HEAD, h + rest, TIMEOUT_TAIL);
      InfixOccurs(TIMEOUT_HEAD, h, rest + TIMEOUT_TAIL);
      assert TIMEOUT_HEAD + (h + rest) + TIMEOUT_TAIL == TIMEOUT_HEAD + h + (rest + TIMEOUT_TAIL);
  }
}
