/**
  The Firebase authentication gate of middleware/firebase.go: the handler that
  `FirebaseAuthMiddleware.Middleware` wraps around `next`, and the accessor
  `GetFirebaseToken`.

  The gate is a function from the token verifier, the downstream handler and
  the incoming request to a `Run`: the calls it made, in order, and the
  response it produced. Recording the calls is what lets the contracts below
  say that the verifier or `next` was never reached, that `next` ran exactly
  once, and that it ran only after a successful verification.
 */
module FirebaseMiddleware {
  import opened Wrappers
  import opened GoStrings
  import opened GoContext

  /** The decoded ID token returned by the verifier (`auth.Token`); the gate never looks inside. */
  datatype Token = Token(uid: string, issuer: string, audience: string,
                         issuedAt: int, expires: int, claims: map<string, string>)

  /** Why the verifier refused a token (expired, bad signature, provider unreachable, ...). */
  datatype VerifyError = VerifyError(reason: string)

  /**
    Context keys. `FirebaseKey` is the value of the unexported type
    `firebaseContextKey`: no other package can build it, so it never equals a
    key of other middleware (`ForeignKey`).
   */
  datatype Key = FirebaseKey | ForeignKey(owner: string, name: string)

  /** The dynamic values stored in a context: a token, or anything else. */
  datatype Any = TokenVal(token: Token) | OtherVal(repr: string)

  type Ctx = Context<Key, Any>

  /** Request headers, by canonical name, each with its list of values. */
  type Header = map<string, seq<string>>

  datatype Request = Request(verb: string, url: string, header: Header, ctx: Ctx)

  /** What was written back: the status code and the body text. */
  datatype Response = Response(status: int, body: string)

  /** `m.auth.VerifyIDToken(ctx, idToken)`, an external call, as a parameter. */
  type Verifier = string -> Result<Token, VerifyError>

  /** The wrapped downstream handler `next`. */
  type Handler = Request -> Response

  /** A call the gate makes: to the verifier, or to `next`. */
  datatype Step = Verify(idToken: string) | Next(req: Request)

  /** One execution of the gate on one request. */
  datatype Run = Run(trace: seq<Step>, response: Response)

  const AuthorizationHeader := "Authorization"
  const BearerPrefix := "Bearer "
  const StatusUnauthorized := 401
  const NoIdToken := "No ID token"
  const InvalidIdToken := "Invalid ID token"

  /** `http.Header.Get` for an already canonical name: the first value, or "" when there is none. */
  function HeaderGet(h: Header, name: string): string
  {
    if name in h && |h[name]| > 0 then h[name][0] else ""
  }

  /** How many times a trace calls `next`. */
  function NextCalls(trace: seq<Step>): nat
  {
    if trace == [] then 0
    else (if trace[0].Next? then 1 else 0) + NextCalls(trace[1..])
  }

  /**
    The reference condition for letting a request through, stated on its own:
    the header is non-empty, starts with "Bearer ", and what follows that one
    prefix is accepted by the verifier.
   */
  ghost predicate Admitted(verify: Verifier, authHeader: string)
  {
    && authHeader != ""
    && HasPrefix(authHeader, BearerPrefix)
    && (exists idToken :: BearerPrefix + idToken == authHeader && verify(idToken).Success?)
  }

  /** The request `next` receives: the same request, with `token` bound under the private key. */
  function WithToken(r: Request, token: Token): Request
  {
    r.(ctx := WithValue(r.ctx, FirebaseKey, TokenVal(token)))
  }

  /** The handler closure built by `FirebaseAuthMiddleware.Middleware(next)`. */
  function Serve(verify: Verifier, next: Handler, r: Request): (run: Run)
    ensures |run.trace| <= 2
    // The verifier, when called, is called first; `next` only ever second.
    ensures |run.trace| >= 1 ==> run.trace[0].Verify?
    ensures forall i | 0 <= i < |run.trace| :: run.trace[i].Next? <==> i == 1
    // `next` runs only after a verification that succeeded, and its response is the gate's.
    ensures |run.trace| == 2 ==>
              verify(run.trace[0].idToken).Success? && run.response == next(run.trace[1].req)
    // Every refusal is a 401.
    ensures |run.trace| < 2 ==> run.response.status == StatusUnauthorized
  {
    var authHeader := HeaderGet(r.header, AuthorizationHeader);
    if authHeader == "" then
      Run([], Response(StatusUnauthorized, NoIdToken))
    else if !HasPrefix(authHeader, BearerPrefix) then
      Run([], Response(StatusUnauthorized, InvalidIdToken))
    else
      var idToken := TrimPrefix(authHeader, BearerPrefix);
      match verify(idToken)
      case Failure(_) =>
        Run([Verify(idToken)], Response(StatusUnauthorized, InvalidIdToken))
      case Success(token) =>
        var passed := WithToken(r, token);
        Run([Verify(idToken), Next(passed)], next(passed))
  }

  /** `GetFirebaseToken(ctx)`; `None` stands for Go's `(nil, false)`. */
  function GetFirebaseToken(ctx: Ctx): (r: Option<Token>)
    ensures r.Some? <==> FirebaseKey in Bindings(ctx) && Bindings(ctx)[FirebaseKey].TokenVal?
    ensures r.Some? ==> Bindings(ctx)[FirebaseKey] == TokenVal(r.value)
  {
    ValueIsLookup(ctx, FirebaseKey);
    var v := Value(ctx, FirebaseKey);
    if v.Some? && v.value.TokenVal? then Some(v.value.token) else None
  }

  // ---------------------------------------------------------------------------
  // Properties of the gate

  /** An absent or empty Authorization header: 401 "No ID token", no call made. */
  lemma EmptyHeaderRejected(verify: Verifier, next: Handler, r: Request)
    requires HeaderGet(r.header, AuthorizationHeader) == ""
    ensures Serve(verify, next, r) == Run([], Response(StatusUnauthorized, NoIdToken))
  {
  }

  /** A header without the exact "Bearer " prefix: 401 "Invalid ID token", no call made. */
  lemma MissingBearerRejected(verify: Verifier, next: Handler, r: Request)
    requires HeaderGet(r.header, AuthorizationHeader) != ""
    requires !HasPrefix(HeaderGet(r.header, AuthorizationHeader), BearerPrefix)
    ensures Serve(verify, next, r) == Run([], Response(StatusUnauthorized, InvalidIdToken))
  {
  }

  /** The prefix test is case-sensitive and includes the trailing space. */
  lemma PrefixIsExact()
    ensures !HasPrefix("bearer abc", BearerPrefix)
    ensures !HasPrefix("BEARER abc", BearerPrefix)
    ensures !HasPrefix("Bearer", BearerPrefix)
    ensures !HasPrefix("Bearerabc", BearerPrefix)
    ensures HasPrefix("Bearer abc", BearerPrefix)
  {
    assert "bearer abc"[0] != BearerPrefix[0];
    assert "BEARER abc"[1] != BearerPrefix[1];
    assert "Bearerabc"[6] != BearerPrefix[6];
  }

  /**
    The verifier is called at most once, and only with the header minus exactly
    one leading "Bearer ": seven characters shorter, and restored by prepending it.
   */
  lemma VerifierSeesStrippedHeader(verify: Verifier, next: Handler, r: Request, i: nat)
    requires i < |Serve(verify, next, r).trace|
    requires Serve(verify, next, r).trace[i].Verify?
    ensures i == 0
    ensures var authHeader := HeaderGet(r.header, AuthorizationHeader);
            var idToken := Serve(verify, next, r).trace[i].idToken;
            && authHeader != ""
            && HasPrefix(authHeader, BearerPrefix)
            && BearerPrefix + idToken == authHeader
            && |idToken| == |authHeader| - 7
  {
  }

  /** Only one prefix is removed: "Bearer Bearer x" is verified as "Bearer x". */
  lemma DoubleBearerStripsOnce(verify: Verifier, next: Handler, r: Request)
    requires HeaderGet(r.header, AuthorizationHeader) == "Bearer Bearer x"
    ensures Serve(verify, next, r).trace[0] == Verify("Bearer x")
  {
  }

  /** A header of exactly "Bearer " passes the prefix test; the verifier gets "". */
  lemma BareBearerVerifiesEmpty(verify: Verifier, next: Handler, r: Request)
    requires HeaderGet(r.header, AuthorizationHeader) == BearerPrefix
    ensures Serve(verify, next, r).trace[0] == Verify("")
    ensures verify("").Failure? ==>
              Serve(verify, next, r) == Run([Verify("")], Response(StatusUnauthorized, InvalidIdToken))
  {
  }

  /** A verifier error: 401 "Invalid ID token", and `next` is not called. */
  lemma VerifierErrorRejected(verify: Verifier, next: Handler, r: Request, idToken: string)
    requires HeaderGet(r.header, AuthorizationHeader) == BearerPrefix + idToken
    requires verify(idToken).Failure?
    ensures Serve(verify, next, r) == Run([Verify(idToken)], Response(StatusUnauthorized, InvalidIdToken))
  {
  }

  /** `next` is called exactly once if the request is admitted, and never otherwise. */
  lemma NextIffAdmitted(verify: Verifier, next: Handler, r: Request)
    ensures NextCalls(Serve(verify, next, r).trace) ==
            if Admitted(verify, HeaderGet(r.header, AuthorizationHeader)) then 1 else 0
  {
    var authHeader := HeaderGet(r.header, AuthorizationHeader);
    var trace := Serve(verify, next, r).trace;
    if authHeader != "" && HasPrefix(authHeader, BearerPrefix) {
      var idToken := TrimPrefix(authHeader, BearerPrefix);
      // The stripped token is the only candidate for the existential in Admitted.
      forall t | BearerPrefix + t == authHeader ensures t == idToken {
        TrimPrefixOfConcat(BearerPrefix, t);
      }
      assert BearerPrefix + idToken == authHeader;
      if verify(idToken).Success? {
        assert Admitted(verify, authHeader);
        assert trace[1..][0].Next? && trace[1..][1..] == [];
        assert NextCalls(trace[1..]) == 1;
      } else {
        assert trace[1..] == [];
      }
    }
  }

  /**
    On success, `next` receives the request with only its context replaced; the
    new context binds the private key to exactly the verifier's token and keeps
    every other binding of the original context.
   */
  lemma PassedRequest(verify: Verifier, next: Handler, r: Request, idToken: string, token: Token)
    requires HeaderGet(r.header, AuthorizationHeader) == BearerPrefix + idToken
    requires verify(idToken) == Success(token)
    ensures var run := Serve(verify, next, r);
            && run.trace == [Verify(idToken), Next(WithToken(r, token))]
            && run.response == next(WithToken(r, token))
    ensures var passed := WithToken(r, token);
            && passed.verb == r.verb && passed.url == r.url && passed.header == r.header
            && Bindings(passed.ctx) == Bindings(r.ctx)[FirebaseKey := TokenVal(token)]
            && (forall k | k != FirebaseKey :: Value(passed.ctx, k) == Value(r.ctx, k))
            && GetFirebaseToken(passed.ctx) == Some(token)
  {
  }

  /** The accessor finds the token in any context the gate derived. */
  lemma GetFirebaseTokenAfterGate(ctx: Ctx, token: Token)
    ensures GetFirebaseToken(WithValue(ctx, FirebaseKey, TokenVal(token))) == Some(token)
  {
  }

  /**
    The accessor reports "not found" rather than failing on a context without
    the private key, for instance one no gate has touched.
   */
  lemma GetFirebaseTokenAbsent(ctx: Ctx)
    requires FirebaseKey !in Bindings(ctx)
    ensures GetFirebaseToken(ctx) == None
  {
  }

  /** Bindings other middleware adds after the gate do not hide the token. */
  lemma ForeignBindingsKeepToken(ctx: Ctx, owner: string, name: string, v: Any)
    ensures GetFirebaseToken(WithValue(ctx, ForeignKey(owner, name), v)) == GetFirebaseToken(ctx)
  {
  }
}
