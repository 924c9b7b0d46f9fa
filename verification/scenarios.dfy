/**
 The five interceptor scenarios of the repository's test table, each stated
 for every method name and every request, with a handler that answers "mock".
 */
module Scenarios {
  import opened Options
  import opened Interceptor

  /** The handler the scenarios use: it ignores the request and answers "mock". */
  function MockHandler(req: string): (r: string)
  {
    "mock"
  }

  /** By default no service is under maintenance: the handler's answer comes back. */
  lemma DefaultIsAvailable(req: string, fullMethod: string)
    ensures UnaryServerInterceptor([])(req, UnaryServerInfo(Plain, fullMethod), MockHandler) == Delegated("mock")
  {
  }

  /** Forced maintenance refuses with Unavailable and the default message, and no response. */
  lemma AlwaysMaintenanceRefuses(req: string, fullMethod: string)
    ensures UnaryServerInterceptor([WithAlwaysMaintenance])(req, UnaryServerInfo(Plain, fullMethod), MockHandler)
         == Refused(Unavailable, DefaultMessage)
  {
  }

  /** A message option replaces the refusal text. */
  lemma ChangedMessageRefuses(req: string, fullMethod: string)
    ensures UnaryServerInterceptor([WithAlwaysMaintenance, WithMessage("foobar")])(req, UnaryServerInfo(Plain, fullMethod), MockHandler)
         == Refused(Unavailable, "foobar")
  {
  }

  /** An override answering false admits the call even under forced maintenance. */
  lemma OverrideMakesServerAvailable(req: string, fullMethod: string)
    ensures UnaryServerInterceptor([WithAlwaysMaintenance])(req, UnaryServerInfo(Overriding(_ => false), fullMethod), MockHandler)
         == Delegated("mock")
  {
  }

  /** An override answering true refuses the call, with the default message, even with no options. */
  lemma OverridePutsServerUnderMaintenance(req: string, fullMethod: string)
    ensures UnaryServerInterceptor([])(req, UnaryServerInfo(Overriding(_ => true), fullMethod), MockHandler)
         == Refused(Unavailable, DefaultMessage)
  {
  }
}
