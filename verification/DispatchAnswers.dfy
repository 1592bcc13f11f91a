/** Which response a dispatched request is answered with, and when it is fetched or tunnelled. */
module DispatchAnswers {
  import opened Basics
  import opened Dispatch
  import opened DispatchTheorems

  /** r is sent, and nothing else is. */
  ghost predicate Sends(log: seq<Event>, r: Resp) {
    Sent(r) in log && forall e :: e in log && e.Sent? ==> e == Sent(r)
  }

  /** Events of the request chain's own, and of what follows it without a fetch. */
  predicate Elsewhere(e: Event) { e.Tunnelled? || e.Fetched? }

  // ----- what the done chain and ForwardResponse add -----

  lemma {:induction false} DoneIsQuiet(hs: seq<Handler>, i: nat, v: View)
    requires i <= |hs|
    ensures forall e :: e in DoneFrom(hs, i, v).log ==> e.CallDone?
    decreases |hs| - i
  {
    if i < |hs| {
      DoneIsQuiet(hs, i + 1, hs[i](v).0);
    }
  }

  lemma DoneChainIsQuiet(p: Proxy, v: View)
    ensures forall e :: e in DoneChain(p, v).log ==> e.CallDone? || e.DoneStarts?
  {
    DoneIsQuiet(p.done, 0, v);
  }

  lemma ForwardedSends(p: Proxy, env: Env, v: View)
    requires v.resp.Some?
    ensures Sends(Forwarded(p, env, v).log, v.resp.value)
    ensures forall e :: e in Forwarded(p, env, v).log ==> !Elsewhere(e) && !e.CallRequest? && !e.CallResponse?
  {
    DoneChainIsQuiet(p, v);
    assert Forwarded(p, env, v).log[0] == Sent(v.resp.value);
  }

  /** The done chain follows, unless the client is a secure MITM client and a step of its response fails. */
  lemma ForwardedEnds(p: Proxy, env: Env, v: View)
    requires v.resp.Some?
    ensures var log := Forwarded(p, env, v).log;
            if v.throughMITM && v.secure && env.failing.Some? then
              log == [Sent(v.resp.value), MitmFailed(env.failing.value)]
            else
              log == [Sent(v.resp.value)] + [DoneStarts] + DoneFrom(p.done, 0, v).log
  {
  }

  lemma SendsAfter(calls: seq<Event>, o: Outcome, r: Resp)
    requires Sends(o.log, r) && forall e :: e in calls ==> !e.Sent?
    ensures Sends(After(calls, o).log, r)
  {
  }

  // ----- the response chain -----

  /** What the client of a rejected response gets. */
  ghost predicate SendsRejection(log: seq<Event>, ext: string) {
    && (ext == ".js" ==> Sends(log, Resp(502, Script)))
    && (ext == ".png" || ext == ".gif" ==> Sends(log, Resp(403, Image)))
    && (ext != ".js" && ext != ".png" && ext != ".gif" ==>
          Sends(log, Resp(502, Page("Tracker Blocked", "502.2 Blocked by Winston"))))
  }

  /** What the client gets when there is no response. */
  ghost predicate SendsNoResponse(log: seq<Event>, error: Option<string>) {
    && (error == None ==> Sends(log, Resp(504, Page("Tracker Blocked", "504 Blocked by Winston"))))
    && (error == Some("x509: certificate signed by unknown authority") ==>
          Sends(log, Resp(504, Page("Website blocked", "Certificate signed by unknown authority"))))
    && (error.Some? && error.value != "x509: certificate signed by unknown authority" ==>
          Sends(log, Resp(504, Page("Network error", error.value))))
  }

  /** All response handlers pass: a REJECT among them decides, else the response they leave, else the error. */
  lemma ResponseSent(p: Proxy, env: Env, v: View)
    requires StopsAt(p.response, v, ResponsePasses, |p.response|)
    ensures var log := ResponseFrom(p, env, 0, v, false).log;
            var w := ViewAt(p.response, v, |p.response|);
            var rejected := exists j :: 0 <= j < |p.response| && VerdictAt(p.response, v, j) == REJECT;
            && (rejected ==> SendsRejection(log, w.ext))
            && (!rejected && w.resp.Some? ==> Sends(log, w.resp.value))
            && (!rejected && w.resp.None? ==> SendsNoResponse(log, w.error))
  {
    var n := |p.response|;
    var w := ViewAt(p.response, v, n);
    var rejected := SomeRejects(p.response, v, n);
    var o := Forwarded(p, env, Answered(w, rejected));
    ResponseOutcome(p, env, v, n);
    ForwardedSends(p, env, Answered(w, rejected));
    SendsAfter(ResponseCalls(n), o, Answered(w, rejected).resp.value);
  }

  /** A DONE verdict, or a panic, sends nothing. */
  lemma NothingSentWhenStopped(p: Proxy, env: Env, v: View, k: nat)
    requires StopsAt(p.response, v, ResponsePasses, k) && k < |p.response|
    ensures forall e :: e in ResponseFrom(p, env, 0, v, false).log ==> !e.Sent?
  {
    ResponseOutcome(p, env, v, k);
    DoneChainIsQuiet(p, ViewAt(p.response, v, k + 1));
  }

  lemma {:induction false} ResponseIsHere(p: Proxy, env: Env, i: nat, v: View, rejected: bool)
    requires i <= |p.response|
    ensures forall e :: e in ResponseFrom(p, env, i, v, rejected).log ==> !Elsewhere(e)
    decreases |p.response| - i
  {
    if i == |p.response| {
      ForwardedSends(p, env, Answered(v, rejected));
    } else {
      var (w, d) := p.response[i](v);
      DoneChainIsQuiet(p, w);
      ResponseIsHere(p, env, i + 1, w, rejected);
      ResponseIsHere(p, env, i + 1, w, true);
    }
  }

  lemma EndingIsHere(p: Proxy, env: Env, w: View, d: Next)
    ensures forall e :: e in Ending(p, env, w, d).log ==> !Elsewhere(e)
  {
    if d == DONE {
      DoneChainIsQuiet(p, w);
    } else if d == MOCK {
      ResponseIsHere(p, env, 0, w, false);
    } else if d == FORWARD && w.resp.Some? {
      ForwardedSends(p, env, w);
    } else if d == REJECT {
      ForwardedSends(p, env, w.(resp := Some(Dummy(w.ext, REJECTED_REQUEST))));
    }
  }

  // ----- the request chain -----

  /** The request is tunnelled if and only if every request handler passes and the last view says so; if every one
      passes and it does not, and only then, the request is fetched, and the response handlers see what came. */
  lemma TunnelledOrFetched(p: Proxy, env: Env, v: View, k: nat)
    requires StopsAt(p.request, v, RequestPasses, k)
    ensures var log, n := RequestFrom(p, env, 0, v).log, |p.request|;
            && (Tunnelled in log <==> k == n && ViewAt(p.request, v, n).tunnel)
            && (Fetched in log <==> k == n && !ViewAt(p.request, v, n).tunnel)
            && (Tunnelled in log ==> log == RequestCalls(n) + [Tunnelled])
            && (Fetched in log ==>
                  var w := ViewAt(p.request, v, n).(resp := env.fetched, error := env.fetchError);
                  log == RequestCalls(n) + [Fetched] + ResponseFrom(p, env, 0, w, false).log)
  {
    var n := |p.request|;
    RequestOutcome(p, env, v, k);
    if k < n {
      EndingIsHere(p, env, ViewAt(p.request, v, k + 1), VerdictAt(p.request, v, k));
    } else {
      var w := ViewAt(p.request, v, n).(resp := env.fetched, error := env.fetchError);
      ResponseIsHere(p, env, 0, w, false);
      assert !w.tunnel ==> RequestCalls(n) + ([Fetched] + ResponseFrom(p, env, 0, w, false).log)
                           == RequestCalls(n) + [Fetched] + ResponseFrom(p, env, 0, w, false).log;
    }
  }

  /** What the client of a rejected request gets. */
  lemma RejectedRequestSent(p: Proxy, env: Env, v: View, k: nat)
    requires StopsAt(p.request, v, RequestPasses, k) && k < |p.request| && VerdictAt(p.request, v, k) == REJECT
    ensures var log, ext := RequestFrom(p, env, 0, v).log, ViewAt(p.request, v, k + 1).ext;
            && (ext == ".js" ==> Sends(log, Resp(502, Script)))
            && (ext == ".png" || ext == ".gif" ==> Sends(log, Resp(403, Image)))
            && (ext != ".js" && ext != ".png" && ext != ".gif" ==>
                  Sends(log, Resp(504, Page("Tracker Blocked", "504 Blocked by Winston"))))
    ensures forall e :: e in RequestFrom(p, env, 0, v).log ==> !e.CallResponse?
  {
    var w := ViewAt(p.request, v, k + 1);
    var x := w.(resp := Some(Dummy(w.ext, REJECTED_REQUEST)));
    RequestOutcome(p, env, v, k);
    ForwardedSends(p, env, x);
    SendsAfter(RequestCalls(k + 1), Forwarded(p, env, x), x.resp.value);
  }

  /** FORWARD with a response set sends that response, and no response handler is called. */
  lemma ForwardedResponseSent(p: Proxy, env: Env, v: View, k: nat)
    requires StopsAt(p.request, v, RequestPasses, k) && k < |p.request| && VerdictAt(p.request, v, k) == FORWARD
    ensures ViewAt(p.request, v, k + 1).resp.Some?
    ensures Sends(RequestFrom(p, env, 0, v).log, ViewAt(p.request, v, k + 1).resp.value)
    ensures forall e :: e in RequestFrom(p, env, 0, v).log ==> !e.CallResponse?
  {
    var w := ViewAt(p.request, v, k + 1);
    assert !RequestPasses(w, FORWARD);
    RequestOutcome(p, env, v, k);
    ForwardedSends(p, env, w);
    SendsAfter(RequestCalls(k + 1), Forwarded(p, env, w), w.resp.value);
  }

  /** MOCK goes to the response handlers with the response as it is. */
  lemma MockedResponse(p: Proxy, env: Env, v: View, k: nat)
    requires StopsAt(p.request, v, RequestPasses, k) && k < |p.request| && VerdictAt(p.request, v, k) == MOCK
    ensures RequestFrom(p, env, 0, v).log ==
            RequestCalls(k + 1) + ResponseFrom(p, env, 0, ViewAt(p.request, v, k + 1), false).log
  {
    RequestOutcome(p, env, v, k);
  }

  /** DONE sends nothing and starts the done chain; MITM, SIGNATURE and unknown verdicts panic. */
  lemma StoppedRequest(p: Proxy, env: Env, v: View, k: nat)
    requires StopsAt(p.request, v, RequestPasses, k) && k < |p.request|
    ensures var o, d := RequestFrom(p, env, 0, v), VerdictAt(p.request, v, k);
            && (d == DONE ==> Handled in o.log && DoneStarts in o.log && forall e :: e in o.log ==> !e.Sent?)
            && (d == MITM || d == SIGNATURE || d.Other? ==> o.panicked && o.log == RequestCalls(k + 1))
  {
    var w := ViewAt(p.request, v, k + 1);
    RequestOutcome(p, env, v, k);
    DoneChainIsQuiet(p, w);
    if VerdictAt(p.request, v, k) == DONE {
      var o := After([Handled], DoneChain(p, w));
      assert o.log[0] == Handled && o.log[1] == DoneStarts;
      assert RequestFrom(p, env, 0, v).log == RequestCalls(k + 1) + o.log;
    }
  }
}
