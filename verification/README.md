# Firebase authentication gate, modelled in Dafny

This project models the authentication middleware of a small Go HTTP server
(`middleware/firebase.go`). The middleware guards a group of routes. For each
request it reads the `Authorization` header and proceeds as follows:

1. If the header is missing or empty, it rejects the request with 401 "No ID token".
2. If the header does not start with the exact, case-sensitive `"Bearer "`, it rejects with 401 "Invalid ID token".
3. It removes one leading `"Bearer "` and passes the rest to Firebase's `VerifyIDToken`.
4. If the verifier fails, it rejects with 401 "Invalid ID token".
5. Otherwise it stores the decoded token in a derived request context under a private key and calls the downstream handler `next`.

`GetFirebaseToken` reads the token back from a context. It reports "not found" instead of failing.

Files:

- `wrappers.dfy` defines `Option` and `Result`.
- `go_strings.dfy` defines `strings.HasPrefix` and `strings.TrimPrefix` on character sequences.
- `go_context.dfy` models Go's `context.Context` value chain. `Background`, `WithCancel` and `WithValue` are layers, and `Value` searches from the innermost layer outward. `Bindings` is the chain's abstract map view, and `ValueIsLookup` proves that the two agree.
- `firebase_middleware.dfy` holds the gate. `Serve(verify, next, r)` returns a `Run`: the calls made to the verifier and to `next`, in order, plus the response. The verifier and `next` are function parameters. `Admitted` is an independent statement of when a request may pass. `GetFirebaseToken` returns `Option<Token>`, where `None` stands for Go's `(nil, false)`.

## Model

| member | source | states |
|---|---|---|
| `GoStrings.HasPrefix` | middleware/firebase.go:37-40 | The prefix test is an exact match, character by character, so it is case-sensitive; when it holds, the header is the prefix followed by the rest |
| `GoStrings.TrimPrefix` | middleware/firebase.go:42 | If the prefix is present, prepending it to the result gives back the input, and the result is shorter by the prefix length; otherwise the input is returned unchanged |
| `GoStrings.TrimPrefixOfConcat` | middleware/firebase.go:42 | Round trip: `prefix + rest` has the prefix, and trimming it gives `rest` |
| `GoContext.ValueIsLookup` | middleware/firebase.go:52-58 | Looking up a key along the chain of derived contexts gives the same result as looking it up in the context's map of visible bindings; absent keys give nil |
| `GoContext.WithValueChangesOneKey` | middleware/firebase.go:52 | Deriving a context with one binding adds or overrides that key only; every other key looks up as before |
| `FirebaseMiddleware.Serve` | middleware/firebase.go:29-54 | Ordering: the verifier is called at most once and always first; `next` is called at most once, only second, and only after a successful verification; the gate's response is `next`'s; any run without `next` answers 401 |
| `FirebaseMiddleware.GetFirebaseToken` | middleware/firebase.go:57-60 | Returns a token exactly when the private key is bound to a token in the context's bindings, and that token is the bound one; otherwise returns "not found" |
| `FirebaseMiddleware.EmptyHeaderRejected` | middleware/firebase.go:31-35 | An absent or empty header yields 401 "No ID token", and neither the verifier nor `next` is called |
| `FirebaseMiddleware.MissingBearerRejected` | middleware/firebase.go:37-40 | A non-empty header without the `"Bearer "` prefix yields 401 "Invalid ID token", and neither the verifier nor `next` is called |
| `FirebaseMiddleware.PrefixIsExact` | middleware/firebase.go:37 | Lower-case and upper-case variants, a missing trailing space and a missing separator all fail the prefix test; `"Bearer abc"` passes |
| `FirebaseMiddleware.VerifierSeesStrippedHeader` | middleware/firebase.go:42-43 | Any verifier call is the first step. Its argument is a non-empty, prefixed header minus exactly one `"Bearer "`, so the argument is 7 characters shorter than the header |
| `FirebaseMiddleware.DoubleBearerStripsOnce` | middleware/firebase.go:42-43 | The header `"Bearer Bearer x"` is verified as `"Bearer x"` |
| `FirebaseMiddleware.BareBearerVerifiesEmpty` | middleware/firebase.go:37-48 | The header `"Bearer "` passes the prefix test and the verifier is called with the empty string; if the verifier rejects it, the answer is 401 "Invalid ID token" |
| `FirebaseMiddleware.VerifierErrorRejected` | middleware/firebase.go:44-48 | A verifier error yields 401 "Invalid ID token" after exactly one verifier call, and `next` is not called |
| `FirebaseMiddleware.NextIffAdmitted` | middleware/firebase.go:31-53 | `next` is called exactly once if the header is non-empty, has the prefix and the stripped token verifies; otherwise it is never called |
| `FirebaseMiddleware.PassedRequest` | middleware/firebase.go:50-53 | On success the trace is verify then `next`, and the response is `next`'s. The request passed on keeps its verb, URL and headers. Its context binds the private key to exactly the verifier's token, and every other key looks up as in the original context |
| `FirebaseMiddleware.GetFirebaseTokenAfterGate` | middleware/firebase.go:57-60 | On a context the gate derived, the accessor returns the token that was stored |
| `FirebaseMiddleware.GetFirebaseTokenAbsent` | middleware/firebase.go:57-60 | On a context without the private key, the accessor returns "not found" |
| `FirebaseMiddleware.ForeignBindingsKeepToken` | middleware/firebase.go:13-15 | Because the key's type is private, a binding added by other middleware under its own key never changes what the accessor returns |

## Left out

- `main.go` is not modelled. It covers router setup, request-ID/real-IP/logging/recovery middleware, route registration, environment loading, Firebase app construction, the listener on :3333 and graceful shutdown. All of it is wiring over external libraries. As a result, the end-to-end `/` and `/admin` responses are not stated.
- `NewFirebaseAuthMiddleware` (middleware/firebase.go:21-27) is not modelled. It calls into the Firebase SDK and ends the process on error.
- `VerifyIDToken` is not modelled. Its signature checks, key fetching and network I/O are external; the model takes it as an arbitrary function parameter. The source calls it with `context.Background()`, not the request's context, so request cancellation does not reach it. The model has no cancellation or deadlines.
- Logging (middleware/firebase.go:45, 50) is not modelled. It has no effect on behaviour.
- The response body is modelled as the message string. The trailing newline and headers that `http.Error` adds are not modelled.
- Strings are modelled as character sequences, not UTF-8 bytes. The only prefix tested is ASCII, so byte and character prefixes agree.
- Header-name canonicalisation is not modelled. `http.Header.Get` is modelled on an already canonical map: it returns the first value, or `""` when there is none.
- Per-request concurrency is not modelled. It belongs to the HTTP server.
