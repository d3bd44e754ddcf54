/**
 * The request pipeline in front of the flash handlers: the authentication
 * middleware (`loadAuthenticationMiddleware`) wraps the route's handler,
 * answers 401 without calling it when no identity can be extracted, and
 * otherwise records the identity in the request context and calls the
 * handler once. The store handle the other middleware injects is passed
 * explicitly instead.
 */
module Pipeline {
  import opened Wrappers
  import opened Codec
  import opened Auth
  import opened Store
  import opened Http
  import opened Handlers

  /** The two authenticated flash routes. */
  datatype Route = GetFlash | PostFlash

  /**
   * The parts of a request the pipeline and handlers read: the
   * `Authorization` header value and the result of binding the body to a
   * list of flash messages (`None` when binding fails).
   */
  datatype Request = Request(authorization: seq<Byte>, body: Option<seq<Flash>>)

  /** Which store round trips of one request fail on the network. */
  datatype Faults = Faults(pipeline: bool, lrange: bool, del: bool)

  const NoFaults: Faults := Faults(false, false, false)

  /** The route's handler run for identity `sub`. */
  function HandlerStep(ks: Keyspace, route: Route, sub: string, req: Request, faults: Faults): Step {
    match route
    case GetFlash => DrainStep(ks, sub, faults.lrange, faults.del)
    case PostFlash => AddStep(ks, sub, req.body, faults.pipeline)
  }

  /** One request through the authentication middleware and the route's handler. */
  function ServeStep(ks: Keyspace, route: Route, req: Request, decode: ClaimsDecoder, faults: Faults): (r: Step)
    ensures r.response == NoContent(StatusUnauthorized) <==> ExtractSub(req.authorization, decode).Failed?
    ensures r.response == Aborted <==> ExtractSub(req.authorization, decode).Panicked?
    ensures !ExtractSub(req.authorization, decode).Identity? ==> r.ks == ks
  {
    match ExtractSub(req.authorization, decode)
    case Failed(_) => Step(ks, NoContent(StatusUnauthorized))
    case Panicked(_) => Step(ks, Aborted)
    case Identity(sub) => HandlerStep(ks, route, sub, req, faults)
  }

  /** `loadAuthenticationMiddleware(next)` applied to a request, `next` being the route's handler. */
  method Authenticate(store: Store, ctx: Context, route: Route, req: Request, decode: ClaimsDecoder, faults: Faults)
    returns (resp: Response)
    requires store.Valid()
    modifies store, ctx
    ensures store.Valid()
    ensures Step(store.State(), resp) == ServeStep(old(store.State()), route, req, decode, faults)
    ensures ctx.currentUser ==
      match ExtractSub(req.authorization, decode)
      case Identity(sub) => Some(sub)
      case _ => old(ctx.currentUser)
  {
    var extracted := ExtractSub(req.authorization, decode);
    match extracted
    case Failed(_) =>
      resp := NoContent(StatusUnauthorized);
    case Panicked(_) =>
      resp := Aborted;
    case Identity(sub) =>
      ctx.currentUser := Some(sub);
      match route
      case GetFlash =>
        resp := GetMessages(store, ctx, faults.lrange, faults.del);
      case PostFlash =>
        resp := AddMessages(store, ctx, req.body, faults.pipeline);
  }

  /** `livenessHandler`: a constant answer that never consults the store. */
  function Liveness(ks: Keyspace): (r: Step)
    ensures r.ks == ks
    ensures r.response == StatusJson(StatusServiceUnavailable, "UP")
  {
    Step(ks, StatusJson(StatusServiceUnavailable, "UP"))
  }

  /** A request whose identity cannot be extracted answers 401 and never reaches the handler or the store. */
  lemma UnauthenticatedUntouched(ks: Keyspace, route: Route, req: Request, decode: ClaimsDecoder, faults: Faults)
    requires ExtractSub(req.authorization, decode).Failed?
    ensures ServeStep(ks, route, req, decode, faults) == Step(ks, NoContent(StatusUnauthorized))
  {
  }

  /** In particular a request without an `Authorization` header. */
  lemma MissingHeaderUnauthorized(ks: Keyspace, route: Route, body: Option<seq<Flash>>, decode: ClaimsDecoder, faults: Faults)
    ensures ServeStep(ks, route, Request([], body), decode, faults) == Step(ks, NoContent(StatusUnauthorized))
  {
  }

  /** The two panics (short header, non-string `sub`) abort the request before the handler runs. */
  lemma PanicUntouched(ks: Keyspace, route: Route, req: Request, decode: ClaimsDecoder, faults: Faults)
    requires ExtractSub(req.authorization, decode).Panicked?
    ensures ServeStep(ks, route, req, decode, faults) == Step(ks, Aborted)
  {
  }

  /** With an identity, the request is exactly one run of the route's handler for that identity. */
  lemma AuthenticatedRunsHandler(ks: Keyspace, route: Route, req: Request, decode: ClaimsDecoder, faults: Faults, sub: string)
    requires ExtractSub(req.authorization, decode) == Identity(sub)
    ensures ServeStep(ks, route, req, decode, faults) == HandlerStep(ks, route, sub, req, faults)
  {
  }
}
