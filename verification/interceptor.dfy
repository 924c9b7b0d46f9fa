/**
 The interception gate: for every unary call it decides, before the handler
 runs, whether the service is under maintenance. A per-service override, when
 the service implements one, is authoritative; otherwise the global predicate
 of the resolved settings decides. A refused call gets an Unavailable status
 carrying the configured message; an admitted call gets the handler's result
 unchanged.
 */
module Interceptor {
  import opened Options

  /** The status codes this component produces: only Unavailable. */
  datatype Code = Unavailable

  /** The service implementation behind a call, seen only through whether it
      implements the per-service override, and if so, what the override answers
      for a fully qualified method name. */
  datatype Server =
    | Plain
    | Overriding(maintenanceFuncOverride: string -> bool)

  /** The call metadata the gate looks at. */
  datatype UnaryServerInfo = UnaryServerInfo(server: Server, fullMethod: string)

  /** What the gate returns: a refusal status with no response, or whatever the
      handler returned (response and error alike, folded into `R`). */
  datatype Outcome<R> =
    | Refused(code: Code, message: string)
    | Delegated(response: R)

  /** The answer that decides the call: the override's answer for the invoked
      method when the service has one, the global predicate otherwise. */
  predicate UnderMaintenance(s: Settings, info: UnaryServerInfo)
  {
    match info.server
    case Overriding(f) => f(info.fullMethod)
    case Plain => s.maintenanceFunc()
  }

  /** One call through the gate. The handler is a partial function: it need
      only be callable on the request when the call is admitted, so a refusal
      is reached without ever applying it. */
  function Intercept<Req, R>(s: Settings, req: Req, info: UnaryServerInfo, handler: Req --> R): (r: Outcome<R>)
    requires !UnderMaintenance(s, info) ==> handler.requires(req)
    ensures info.server.Overriding? ==> (r.Refused? <==> info.server.maintenanceFuncOverride(info.fullMethod))
    ensures info.server.Plain? ==> (r.Refused? <==> s.maintenanceFunc())
    ensures r.Refused? ==> r == Refused(Unavailable, s.message)
    ensures r.Delegated? ==> handler.requires(req) && r.response == handler(req)
  {
    if UnderMaintenance(s, info) then Refused(Unavailable, s.message) else Delegated(handler(req))
  }

  /** The interceptor for a list of options: the options are resolved once, and
      the returned closure runs the gate with those settings on every call. It
      accepts any handler that can be applied to the request whenever the call
      is admitted. A service with an override is refused exactly when the
      override answers true for the invoked method, any other service exactly
      when some option forces maintenance; a refusal is Unavailable with the
      resolved message, an admission carries the handler's result. */
  function UnaryServerInterceptor<Req(!new), R(!new)>(opts: seq<Option>): (i: (Req, UnaryServerInfo, Req --> R) --> Outcome<R>)
    ensures forall req, info, handler: Req --> R | !UnderMaintenance(BuildOptions(opts), info) ==> handler.requires(req) ::
      && i.requires(req, info, handler)
      && (i(req, info, handler).Refused? <==>
           if info.server.Overriding? then info.server.maintenanceFuncOverride(info.fullMethod)
           else WithAlwaysMaintenance in opts)
      && (i(req, info, handler).Refused? ==> i(req, info, handler) == Refused(Unavailable, BuildOptions(opts).message))
      && (i(req, info, handler).Delegated? ==> i(req, info, handler).response == handler(req))
  {
    var o := BuildOptions(opts);
    (req: Req, info: UnaryServerInfo, handler: Req --> R)
      requires !UnderMaintenance(o, info) ==> handler.requires(req)
      => Intercept(o, req, info, handler)
  }

  /** A service with an override is decided by the override alone: two settings
      with the same message give the same outcome, whatever their predicates say. */
  lemma OverrideTakesPrecedence<Req, R>(s1: Settings, s2: Settings, req: Req, info: UnaryServerInfo, handler: Req --> R)
    requires info.server.Overriding?
    requires !UnderMaintenance(s1, info) ==> handler.requires(req)
    requires s1.message == s2.message
    ensures Intercept(s1, req, info, handler) == Intercept(s2, req, info, handler)
  {
  }

  /** Under maintenance the call is refused even with a handler that cannot be
      applied to the request at all: the handler is never invoked. */
  lemma RefusalNeverInvokesHandler<Req, R>(s: Settings, req: Req, info: UnaryServerInfo, handler: Req --> R)
    requires UnderMaintenance(s, info)
    requires !handler.requires(req)
    ensures Intercept(s, req, info, handler) == Refused(Unavailable, s.message)
  {
  }

  /** A refusal does not depend on the handler: any other handler gets the same refusal. */
  lemma RefusalShortCircuits<Req, R>(s: Settings, req: Req, info: UnaryServerInfo, h1: Req --> R, h2: Req --> R)
    requires UnderMaintenance(s, info)
    ensures Intercept(s, req, info, h2) == Intercept(s, req, info, h1)
  {
  }

  /** Whether a call is admitted depends only on the settings and the call
      metadata (through the override's or the predicate's answer), never on the
      request or the handler. */
  lemma DecisionIgnoresRequest<Req, R>(s: Settings, info: UnaryServerInfo, req1: Req, h1: Req --> R, req2: Req, h2: Req --> R)
    requires !UnderMaintenance(s, info) ==> h1.requires(req1) && h2.requires(req2)
    ensures Intercept(s, req1, info, h1).Refused? == Intercept(s, req2, info, h2).Refused?
  {
  }

  /** An admitted call returns exactly what the handler returned. */
  lemma AdmissionIsTransparent<Req, R>(s: Settings, req: Req, info: UnaryServerInfo, handler: Req --> R)
    requires !UnderMaintenance(s, info)
    requires handler.requires(req)
    ensures Intercept(s, req, info, handler) == Delegated(handler(req))
  {
  }

  /** The interceptor built from `opts` can be called with a handler that cannot
      be applied to the request, as long as the call is refused: it needs the
      handler only on admission. */
  lemma InterceptorNeedsHandlerOnlyOnAdmission<Req(!new), R(!new)>(opts: seq<Option>, req: Req, info: UnaryServerInfo, handler: Req --> R)
    requires !UnderMaintenance(BuildOptions(opts), info) ==> handler.requires(req)
    ensures UnaryServerInterceptor(opts).requires(req, info, handler)
  {
  }

  /** Through the interceptor built from `opts`, a call to a service without an
      override is refused exactly when some option forces maintenance; the
      refusal carries the last configured message, or the default one, and is
      reached even with a handler that cannot be applied to the request. */
  lemma PlainServerDecision<Req(!new), R(!new)>(opts: seq<Option>, req: Req, fullMethod: string, handler: Req --> R)
    requires WithAlwaysMaintenance !in opts ==> handler.requires(req)
    ensures var r := UnaryServerInterceptor(opts)(req, UnaryServerInfo(Plain, fullMethod), handler);
      && (r.Refused? <==> WithAlwaysMaintenance in opts)
      && (r.Delegated? ==> r.response == handler(req))
      && (r.Refused? && NoMessage(opts) ==> r == Refused(Unavailable, DefaultMessage))
      && (forall i | IsLastMessage(opts, i) :: r.Refused? ==> r == Refused(Unavailable, opts[i].message))
  {
  }

  /** Through the interceptor built from any options, a call to a service with
      an override is refused exactly when the override says so for the invoked
      method, with the resolved message; otherwise the handler's result comes back. */
  lemma OverridingServerDecision<Req(!new), R(!new)>(opts: seq<Option>, req: Req, fullMethod: string, f: string -> bool, handler: Req --> R)
    requires !f(fullMethod) ==> handler.requires(req)
    ensures var r := UnaryServerInterceptor(opts)(req, UnaryServerInfo(Overriding(f), fullMethod), handler);
      && (r.Refused? <==> f(fullMethod))
      && (r.Delegated? ==> r.response == handler(req))
      && (r.Refused? ==> r == Refused(Unavailable, BuildOptions(opts).message))
  {
  }
}
