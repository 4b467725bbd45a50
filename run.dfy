/** Requests handled one after another against the one shared slot. Each handler call
    takes the slot atomically, so any interleaving of concurrent requests behaves like
    some sequence of arrivals processed in order. */
module ShutdownRun {

  import opened Wrappers
  import opened GatewayConfig
  import opened Signal
  import opened ShutdownRoute

  /** A request together with whether its handler got the slot's lock. */
  datatype Arrival = Arrival(request: Request, lockAcquired: bool)

  /** The responses given, in order; what the slot holds at the end; and every `send`
      made on the shutdown channel, in order. */
  datatype Trace = Trace(responses: seq<Response>, slot: Option<Sender>, signals: seq<SendResult>)

  /** An arrival that takes the sender if the slot still holds it. */
  predicate Fires(config: Config, a: Arrival)
  {
    Authorized(config, a.request) && a.lockAcquired
  }

  /** Route each arrival in turn, threading the slot through. Every request gets one
      response; an authorized one gets a shutdown reply, any other is forwarded as is. */
  function Run(config: Config, held: Option<Sender>, arrivals: seq<Arrival>): (t: Trace)
    ensures |t.responses| == |arrivals|
    ensures forall i :: 0 <= i < |arrivals| ==>
      (t.responses[i].Forwarded? <==> !Authorized(config, arrivals[i].request))
    ensures forall i :: 0 <= i < |arrivals| && t.responses[i].Forwarded? ==>
      t.responses[i].request == arrivals[i].request
    ensures forall i :: 0 <= i < |arrivals| && t.responses[i].Shutdown? ==>
      t.responses[i].body == SuccessBody || t.responses[i].body == FailureBody
    decreases |arrivals|
  {
    if arrivals == [] then
      Trace([], held, [])
    else
      var a := arrivals[0];
      var r := Route(a.request, config, held, a.lockAcquired);
      var rest := Run(config, r.slot, arrivals[1..]);
      Trace([r.response] + rest.responses, rest.slot,
            (if r.sent.Some? then [r.sent.value] else []) + rest.signals)
  }

  /** The sender is never duplicated: at the end it is either still in the slot with
      nothing sent, or `true` has been sent on it exactly once. */
  lemma {:induction false} SenderConserved(config: Config, held: Option<Sender>, arrivals: seq<Arrival>)
    ensures var t := Run(config, held, arrivals);
      && (held.None? ==> t.slot == None && t.signals == [])
      && (t.slot.Some? ==> t.slot == held && t.signals == [])
      && (held.Some? && t.slot.None? ==> t.signals == [Send(held.value, true)])
    decreases |arrivals|
  {
    if arrivals != [] {
      var a := arrivals[0];
      var r := Route(a.request, config, held, a.lockAcquired);
      SenderConserved(config, r.slot, arrivals[1..]);
    }
  }

  /** Arrivals none of which fires (a wrong key, another path, a poisoned lock) leave
      the slot as it was and send nothing. */
  lemma {:induction false} NoFiringNoChange(config: Config, held: Option<Sender>, arrivals: seq<Arrival>)
    requires forall i :: 0 <= i < |arrivals| ==> !Fires(config, arrivals[i])
    ensures Run(config, held, arrivals).slot == held
    ensures Run(config, held, arrivals).signals == []
    decreases |arrivals|
  {
    if arrivals != [] {
      assert !Fires(config, arrivals[0]);
      forall i | 0 <= i < |arrivals[1..]|
        ensures !Fires(config, arrivals[1..][i])
      {
        assert arrivals[1..][i] == arrivals[i + 1];
      }
      NoFiringNoChange(config, held, arrivals[1..]);
    }
  }

  /** One routed arrival answers "success" exactly when it fires on a full slot, and
      then empties the slot; otherwise the slot keeps what it held. */
  lemma RouteFiring(config: Config, held: Option<Sender>, a: Arrival)
    ensures var r := Route(a.request, config, held, a.lockAcquired);
      && (r.response == Shutdown(SuccessBody) <==> held.Some? && Fires(config, a))
      && r.slot == (if held.Some? && Fires(config, a) then None else held)
  {
  }

  /** No arrival before position `i` fires. */
  predicate NoneFiresBefore(config: Config, arrivals: seq<Arrival>, i: nat)
    requires i <= |arrivals|
  {
    forall j :: 0 <= j < i ==> !Fires(config, arrivals[j])
  }

  /** Splitting off the first arrival. */
  lemma NoneFiresBeforeShift(config: Config, arrivals: seq<Arrival>, i: nat)
    requires 0 < i <= |arrivals|
    ensures NoneFiresBefore(config, arrivals, i)
        <==> !Fires(config, arrivals[0]) && NoneFiresBefore(config, arrivals[1..], i - 1)
  {
  }

  /** The reply "success" is given exactly to the first arrival that fires, and only
      when the slot held the sender to begin with. */
  lemma {:induction false} SuccessExactlyAtFirstFiring(config: Config, held: Option<Sender>, arrivals: seq<Arrival>, i: nat)
    requires i < |arrivals|
    ensures Run(config, held, arrivals).responses[i] == Shutdown(SuccessBody)
      <==> held.Some? && Fires(config, arrivals[i]) && NoneFiresBefore(config, arrivals, i)
    decreases i
  {
    var a := arrivals[0];
    var r := Route(a.request, config, held, a.lockAcquired);
    var rest := arrivals[1..];
    var tail := Run(config, r.slot, rest);
    assert Run(config, held, arrivals).responses == [r.response] + tail.responses;
    RouteFiring(config, held, a);
    if i > 0 {
      assert rest[i - 1] == arrivals[i];
      assert Run(config, held, arrivals).responses[i] == tail.responses[i - 1];
      SuccessExactlyAtFirstFiring(config, r.slot, rest, i - 1);
      NoneFiresBeforeShift(config, arrivals, i);
    }
  }

  /** At most one request is ever answered "success". */
  lemma AtMostOneSuccess(config: Config, held: Option<Sender>, arrivals: seq<Arrival>, i: nat, j: nat)
    requires i < j < |arrivals|
    ensures Run(config, held, arrivals).responses[i] != Shutdown(SuccessBody)
         || Run(config, held, arrivals).responses[j] != Shutdown(SuccessBody)
  {
    SuccessExactlyAtFirstFiring(config, held, arrivals, i);
    SuccessExactlyAtFirstFiring(config, held, arrivals, j);
  }

  /** Once a request has been answered "success", every later request with the right
      key is answered "failure", a normal reply rather than an error. */
  lemma LaterAuthorizedRequestsFail(config: Config, held: Option<Sender>, arrivals: seq<Arrival>, i: nat, j: nat)
    requires i < j < |arrivals|
    ensures Run(config, held, arrivals).responses[i] == Shutdown(SuccessBody)
         && Authorized(config, arrivals[j].request)
        ==> Run(config, held, arrivals).responses[j] == Shutdown(FailureBody)
  {
    AtMostOneSuccess(config, held, arrivals, i, j);
  }
}
