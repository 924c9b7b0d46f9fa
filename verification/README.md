# grpc-maintenance in Dafny

A model of the gRPC unary server interceptor that refuses calls while a
server, or a single service, is under maintenance.

- `Options` (options.dfy) is the configuration resolver. `Settings` holds the
  global maintenance predicate (`() -> bool`) and the refusal message. An
  `Option` is one of the two mutators, `WithAlwaysMaintenance` or
  `WithMessage(text)`. `BuildOptions` starts from the defaults and folds the
  option list left to right. The default predicate is `AlwaysAvailable` (always
  false). The default message is the repository's fixed notice, which is
  non-empty. `BuildOptionsLoop` is the Go `for … range` loop, proved equal to
  the fold.
- `Interceptor` (interceptor.dfy) is the interception gate. Go's run-time check
  of whether the service implements `MaintenanceFuncOverride` becomes the tag
  `Server = Plain | Overriding(f)`. `Intercept` consults the override when one
  is present and the global predicate otherwise. When the answer is true it
  returns `Refused(Unavailable, message)` and has no response. When it is
  false it returns `Delegated(handler(req))`. The handler is a partial function
  that needs to be callable only when the call is admitted.
  `UnaryServerInterceptor(opts)` resolves the options once and returns the
  per-call closure.
- `Scenarios` (scenarios.dfy) holds the five cases of the repository's test
  table, each proved for every method name and request.

The handler's result, both its response and its error, is one abstract type
`R`. The gate never inspects it.

## Model

| member | source | states |
|---|---|---|
| Options.Defaults | maintenance.go:54-58 | resolution starts from a predicate that answers false and the default message, which is non-empty |
| Options.AlwaysAvailable | maintenance.go:33-35 | the default predicate, which answers false; `Defaults` and `BuildOptions` carry its contract, and the resolved predicate is exactly this function when no option forces maintenance |
| Options.Apply | maintenance.go:67-81 | frame: `WithAlwaysMaintenance` makes the predicate true and keeps the message; `WithMessage(m)` sets the message to `m` and keeps the predicate itself |
| Options.ApplyAll | maintenance.go:60-62 | applying a list of options from any starting settings: the predicate ends up true iff it was true or some option forces maintenance, and it is the original predicate, untouched, when none does; options that never set the message leave it as it was |
| Options.BuildOptions | maintenance.go:54-65 | the resolved settings: the predicate is true iff some option is `WithAlwaysMaintenance`, and otherwise it is `AlwaysAvailable` itself; the message is the text of the last `WithMessage`, or the default when there is none |
| Options.BuildOptionsLoop | maintenance.go:54-65 | the Go loop over the options, one step at a time, computes exactly `BuildOptions`; so its result is under maintenance iff some option forces it and carries the last configured message or the default |
| Options.ApplyAllAppend | maintenance.go:60-62 | options are applied in list order: resolving `a + b` is resolving `a`, then `b` on the result |
| Options.ApplyAllSnoc | maintenance.go:60-62 | an option appended to the list is applied after all the earlier ones |
| Options.ApplyAllMessageLast | maintenance.go:60-81 | the last `WithMessage` decides the message, whatever came before it and from any starting settings |
| Options.BuildOptionsEmpty | maintenance.go:54-58 | with no options the settings are not under maintenance and carry the default message |
| Options.MessageLastWriteWins | maintenance.go:77-81 | `[WithMessage(a), WithMessage(b)]` gives the same settings as `WithMessage(b)` alone |
| Options.OptionsOnDifferentFieldsCommute | maintenance.go:67-81 | the two options write different fields, so their order relative to each other does not matter |
| Options.ApplyIdempotent | maintenance.go:67-81 | applying the same option twice gives the same settings as applying it once |
| Interceptor.Intercept | maintenance.go:17-27 | the handler need only be callable on the request when the call is admitted; with an override, the call is refused iff the override answers true for the full method name; without one, iff the global predicate is true; a refusal is exactly `Unavailable` with the configured message; an admission returns the handler's result |
| Interceptor.UnderMaintenance | maintenance.go:18-22 | the answer that decides a call: the override's answer for the method when there is one, the global predicate otherwise; `Intercept`, `OverrideTakesPrecedence` and `DecisionIgnoresRequest` carry its contract |
| Interceptor.OverrideTakesPrecedence | maintenance.go:18-21 | when the service overrides, the outcome is the same for any two settings with the same message, so the global predicate is never consulted |
| Interceptor.RefusalNeverInvokesHandler | maintenance.go:18-24 | under maintenance the call is refused with `Unavailable` and the configured message even when the handler cannot be applied to the request at all, so the refusal path never invokes the handler |
| Interceptor.RefusalShortCircuits | maintenance.go:18-24 | under maintenance every handler gets the same refusal, so the handler has no part in it |
| Interceptor.DecisionIgnoresRequest | maintenance.go:18-24 | admit or refuse is decided by the override's answer, or the predicate's answer, on this call; the request and the handler play no part |
| Interceptor.AdmissionIsTransparent | maintenance.go:26 | when the call is not under maintenance, the outcome is exactly `Delegated(handler(req))`, with nothing transformed |
| Interceptor.UnaryServerInterceptor | maintenance.go:14-28 | the returned closure accepts every handler that can be applied to the request whenever the call is admitted; with that handler, a service with an override is refused iff the override answers true for the invoked method; any other service is refused iff some option forces maintenance; a refusal is `Unavailable` with the resolved message; an admission returns the handler's result |
| Interceptor.InterceptorNeedsHandlerOnlyOnAdmission | maintenance.go:14-27 | the closure returned by `UnaryServerInterceptor(opts)` can be called with any handler that can be applied to the request whenever the call is admitted; a handler that cannot be applied is acceptable when the call is refused |
| Interceptor.PlainServerDecision | maintenance.go:14-27 | through `UnaryServerInterceptor(opts)`, a service without an override is refused iff some option forces maintenance; the refusal carries the default message or the last configured one; an admission returns the handler's result |
| Interceptor.OverridingServerDecision | maintenance.go:37-43 | through `UnaryServerInterceptor(opts)`, a service with an override is refused iff the override answers true for the invoked method, whatever the options; the refusal is `Unavailable` with the resolved message; an admission returns the handler's result |
| Scenarios.DefaultIsAvailable | maintenance_test.go:43-54 | with no options and no override, the handler's "mock" comes back and no error is injected |
| Scenarios.MockHandler | maintenance_test.go:25-27 | the test table's handler, which answers "mock" whatever the request; the five scenario lemmas use it |
| Scenarios.AlwaysMaintenanceRefuses | maintenance_test.go:55-68 | with `WithAlwaysMaintenance` and no override, the call is refused with `Unavailable` and the default message, and there is no response |
| Scenarios.ChangedMessageRefuses | maintenance_test.go:69-83 | with `WithAlwaysMaintenance` and then `WithMessage("foobar")`, the refusal message is exactly "foobar" |
| Scenarios.OverrideMakesServerAvailable | maintenance_test.go:84-97 | an override that answers false admits the call even under `WithAlwaysMaintenance` |
| Scenarios.OverridePutsServerUnderMaintenance | maintenance_test.go:98-109 | an override that answers true refuses the call with the default message even with no options |

## Left out

- `context.Context`, `grpc.UnaryServerInfo`, `grpc.UnaryHandler` and `grpc.UnaryServerInterceptor` are reduced to a method-name string, a `Server` tag and a partial function `Req --> R`. The context is not passed to the handler in the model.
- `status.Error` and `codes` are reduced to the value `Refused(Unavailable, message)`. A refusal's nil response is the absence of a response in `Refused`.
- Go's dynamic interface assertion is reduced to the `Plain | Overriding(f)` tag. An override or predicate that blocks or panics is not modelled, because both are total functions here.
- A nil `Option` panics in Go when it is applied. It has no counterpart, because the model has only the two option constructors.
- Concurrent invocation is left out. The settings are immutable and every operation is a pure function, so calls cannot observe one another.
- The `MaintenanceFunc` type admits any predicate, but only `AlwaysAvailable` and the constant-true predicate can be reached through the options. `Settings` accepts any `() -> bool`, and the lemmas about the gate hold for all of them.
- In Go the override is a method on the live service object, and the global predicate is an arbitrary function value. Neither has to be pure: a service can put itself under maintenance at run time, so the same server and method can be answered differently on the next call. The model takes the answer for one call only. A stateful override is represented by a different `Overriding(f)` on each call, and a changing predicate by different `Settings`. Repeated calls get the same decision only when those answers do not change.
- The handler's side effects are not modelled. The handler is a partial function `Req --> R`. That a refusal never invokes it is stated by `Intercept` not needing the handler's precondition when the call is refused (`RefusalNeverInvokesHandler`).
- The request and result types of `UnaryServerInterceptor` and of the lemmas about it are declared `Req(!new), R(!new)`. Dafny needs this so that the closure's contract can quantify over requests and handlers. A Go request is an `interface{}` and may be a pointer, and that case is not covered.
- `Outcome` records which path the call took, not what the caller can tell apart. In Go the caller receives `(nil, status.Error(codes.Unavailable, msg))` both when the gate refuses and when the handler itself returns that error. So `Refused?` in the contracts means "refused by the gate", and a `Delegated(r)` whose `r` is such an error looks the same to the caller.
- InterceptorNeedsHandlerOnlyOnAdmission: states only that the closure can be called whenever the handler is applicable on admission, and not the converse. The converse is that a callable closure implies the handler is applicable on admission. The verifier cannot derive it from a lambda's precondition.
