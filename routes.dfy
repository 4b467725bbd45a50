/** The `/shutdown` route, its handler, and the router that sends every request the
    route rejects on to the forwarding branch (src/main.rs:95-126). */
module ShutdownRoute {

  import opened Wrappers
  import opened GatewayConfig
  import opened Signal

  const SuccessBody := "success"
  const FailureBody := "failure"

  /** The path the route matches: exactly one segment, `shutdown`. */
  const ShutdownPath: seq<string> := ["shutdown"]

  /** An inbound request as the router sees it: its decoded path segments and the
      `key` query parameter, `None` when the query does not deserialise into `Params`. */
  datatype Request = Request(path: seq<string>, key: Option<string>)

  /** What the handler closure yields: a `not_found` rejection or an `Ok` reply body. */
  datatype Outcome = NotFound | Reply(body: string)

  /** One handler call: its outcome, the slot's content afterwards, and the result of
      the `send` it made, if it made one. */
  datatype Step = Step(outcome: Outcome, slot: Option<Sender>, sent: Option<SendResult>)

  /** The shutdown handler on the slot's content `held`. A wrong key is rejected and
      touches nothing; a right key takes from the slot, and the reply is "success"
      exactly when a sender was taken, whatever its `send` returned. */
  function HandleShutdown(key: string, config: Config, held: Option<Sender>, lockAcquired: bool): (s: Step)
    ensures key != config.shutdownKey ==> s == Step(NotFound, held, None)
    ensures key == config.shutdownKey ==> s.outcome == Reply(SuccessBody) || s.outcome == Reply(FailureBody)
    ensures s.outcome == Reply(SuccessBody) <==> key == config.shutdownKey && lockAcquired && held.Some?
    ensures s.outcome == Reply(SuccessBody) ==> s.slot == None && s.sent == Some(Send(held.value, true))
    ensures s.outcome != Reply(SuccessBody) ==> s.slot == held && s.sent == None
  {
    if key != config.shutdownKey then
      Step(NotFound, held, None)
    else
      var t := TakeFrom(held, lockAcquired);
      match t.sender
      case Some(tx) => Step(Reply(SuccessBody), t.rest, Some(Send(tx, true)))
      case None => Step(Reply(FailureBody), t.rest, None)
  }

  /** The handler closure, run against the shared slot. */
  method HandleShutdownRequest(key: string, config: Config, slot: ShutdownSlot, lockAcquired: bool)
    returns (outcome: Outcome, sent: Option<SendResult>)
    modifies slot
    ensures Step(outcome, slot.held, sent) == HandleShutdown(key, config, old(slot.held), lockAcquired)
  {
    if key != config.shutdownKey {
      outcome, sent := NotFound, None;
      return;
    }
    var tx := slot.Take(lockAcquired);
    match tx
    case Some(t) =>
      sent := Some(Send(t, true));
      outcome := Reply(SuccessBody);
    case None =>
      sent := None;
      outcome := Reply(FailureBody);
  }

  /** What the gateway answers: the shutdown route's reply body, or the request handed
      on to the forwarding branch. */
  datatype Response = Shutdown(body: string) | Forwarded(request: Request)

  /** One routed request: the response, the slot's content afterwards, and the `send`
      made on the way, if any. */
  datatype Routed = Routed(response: Response, slot: Option<Sender>, sent: Option<SendResult>)

  /** A request the shutdown route accepts: the right path and the configured key. */
  predicate Authorized(config: Config, req: Request)
  {
    req.path == ShutdownPath && req.key == Some(config.shutdownKey)
  }

  /** `shutdown_route.or(<forwarding branch>)`: a request the shutdown route rejects,
      for its path, its query or its key, goes to the forwarding branch untouched. */
  function Route(req: Request, config: Config, held: Option<Sender>, lockAcquired: bool): (r: Routed)
    ensures r.response.Forwarded? <==> !Authorized(config, req)
    ensures r.response.Forwarded? ==> r.response.request == req && r.slot == held && r.sent == None
    ensures r.response.Shutdown? ==>
      Step(Reply(r.response.body), r.slot, r.sent) == HandleShutdown(config.shutdownKey, config, held, lockAcquired)
  {
    if req.path == ShutdownPath && req.key.Some? then
      var s := HandleShutdown(req.key.value, config, held, lockAcquired);
      match s.outcome
      case NotFound => Routed(Forwarded(req), held, None)
      case Reply(body) => Routed(Shutdown(body), s.slot, s.sent)
    else
      Routed(Forwarded(req), held, None)
  }

  /** The router run against the shared slot. */
  method Dispatch(req: Request, config: Config, slot: ShutdownSlot, lockAcquired: bool)
    returns (response: Response, sent: Option<SendResult>)
    modifies slot
    ensures Routed(response, slot.held, sent) == Route(req, config, old(slot.held), lockAcquired)
  {
    if req.path == ShutdownPath && req.key.Some? {
      var outcome;
      outcome, sent := HandleShutdownRequest(req.key.value, config, slot, lockAcquired);
      match outcome
      case NotFound =>
        response := Forwarded(req);
      case Reply(body) =>
        response := Shutdown(body);
    } else {
      response, sent := Forwarded(req), None;
    }
  }

  /** Two requests with the right key on a fresh slot: the first answers "success"
      and sends `true`, the second answers "failure" and sends nothing. */
  method TwoShutdownRequests(config: Config, tx: Sender)
    returns (first: Response, second: Response, firstSent: Option<SendResult>, secondSent: Option<SendResult>)
    ensures first == Shutdown(SuccessBody) && firstSent == Some(Send(tx, true))
    ensures second == Shutdown(FailureBody) && secondSent == None
  {
    var slot := new ShutdownSlot(tx);
    var req := Request(ShutdownPath, Some(config.shutdownKey));
    first, firstSent := Dispatch(req, config, slot, true);
    second, secondSent := Dispatch(req, config, slot, true);
  }

  /** A request with a wrong key is forwarded and leaves the slot as it was. */
  method WrongKeyRequest(config: Config, tx: Sender, key: string)
    returns (response: Response, held: Option<Sender>)
    requires key != config.shutdownKey
    ensures response == Forwarded(Request(ShutdownPath, Some(key)))
    ensures held == Some(tx)
  {
    var slot := new ShutdownSlot(tx);
    var req := Request(ShutdownPath, Some(key));
    var sent;
    response, sent := Dispatch(req, config, slot, true);
    held := slot.held;
  }
}
