/** Which handlers the chains of Dispatch call, and how every chain ends. */
module DispatchTheorems {
  import opened Basics
  import opened Dispatch

  // ----- a chain by its first stopping verdict -----

  /** The view after the first k handlers. */
  function ViewAt(hs: seq<Handler>, v: View, k: nat): View
    requires k <= |hs|
  {
    if k == 0 then v else hs[k - 1](ViewAt(hs, v, k - 1)).0
  }

  function VerdictAt(hs: seq<Handler>, v: View, k: nat): Next
    requires k < |hs|
  {
    hs[k](ViewAt(hs, v, k)).1
  }

  /** Chain k stops: the handlers before it let the chain go on, and it does not (or there is no k-th). */
  ghost predicate StopsAt(hs: seq<Handler>, v: View, goesOn: (View, Next) -> bool, k: nat) {
    && k <= |hs|
    && (forall j :: 0 <= j < k ==> goesOn(ViewAt(hs, v, j + 1), VerdictAt(hs, v, j)))
    && (k < |hs| ==> !goesOn(ViewAt(hs, v, k + 1), VerdictAt(hs, v, k)))
  }

  lemma {:induction false} ChainStops(hs: seq<Handler>, v: View, goesOn: (View, Next) -> bool, k: nat) returns (n: nat)
    requires k <= |hs| && forall j :: 0 <= j < k ==> goesOn(ViewAt(hs, v, j + 1), VerdictAt(hs, v, j))
    ensures StopsAt(hs, v, goesOn, n)
    decreases |hs| - k
  {
    n := k;
    if k < |hs| && goesOn(ViewAt(hs, v, k + 1), VerdictAt(hs, v, k)) {
      n := ChainStops(hs, v, goesOn, k + 1);
    }
  }

  function RequestCalls(k: nat): seq<Event> { seq(k, i requires 0 <= i < k => CallRequest(i)) }
  function ResponseCalls(k: nat): seq<Event> { seq(k, i requires 0 <= i < k => CallResponse(i)) }
  function DoneCalls(k: nat): seq<Event> { seq(k, i requires 0 <= i < k => CallDone(i)) }
  function ConnectCalls(k: nat): seq<Event> { seq(k, i requires 0 <= i < k => CallConnect(i)) }

  // ----- the done chain -----

  predicate DonePasses(w: View, d: Next) { d == NEXT || d == FORWARD }

  lemma {:induction false} DonePrefix(hs: seq<Handler>, v: View, k: nat)
    requires k <= |hs| && forall j :: 0 <= j < k ==> DonePasses(ViewAt(hs, v, j + 1), VerdictAt(hs, v, j))
    ensures DoneFrom(hs, 0, v) == After(DoneCalls(k), DoneFrom(hs, k, ViewAt(hs, v, k)))
    decreases k
  {
    if k > 0 {
      DonePrefix(hs, v, k - 1);
      assert DonePasses(ViewAt(hs, v, k), VerdictAt(hs, v, k - 1));
      AfterAfter(DoneCalls(k - 1), [CallDone(k - 1)], DoneFrom(hs, k, ViewAt(hs, v, k)));
      assert DoneCalls(k) == DoneCalls(k - 1) + [CallDone(k - 1)];
    }
  }

  /** The done chain calls the handlers up to the first verdict that is neither NEXT nor FORWARD. */
  lemma DoneOutcome(hs: seq<Handler>, v: View, k: nat)
    requires StopsAt(hs, v, DonePasses, k)
    ensures DoneFrom(hs, 0, v) ==
            if k == |hs| then Outcome(ViewAt(hs, v, k), DoneCalls(k), false)
            else
              Outcome(ViewAt(hs, v, k + 1), DoneCalls(k + 1),
                      VerdictAt(hs, v, k) == MITM || VerdictAt(hs, v, k) == REJECT)
  {
    DonePrefix(hs, v, k);
    if k < |hs| {
      assert DoneCalls(k + 1) == DoneCalls(k) + [CallDone(k)];
    }
  }

  // ----- the response chain -----

  predicate ResponsePasses(w: View, d: Next) { d == NEXT || d == FORWARD || d == SIGNATURE || d == REJECT }

  ghost predicate SomeRejects(hs: seq<Handler>, v: View, k: nat)
    requires k <= |hs|
  {
    exists j :: 0 <= j < k && VerdictAt(hs, v, j) == REJECT
  }

  lemma ResponseUnfold(p: Proxy, env: Env, i: nat, v: View, rejected: bool)
    requires i < |p.response| && ResponsePasses(p.response[i](v).0, p.response[i](v).1)
    ensures var (w, d) := p.response[i](v);
            ResponseFrom(p, env, i, v, rejected) ==
            After([CallResponse(i)], ResponseFrom(p, env, i + 1, w, rejected || d == REJECT))
  {
  }

  /** The response chain once its first k handlers have been called. */
  ghost function ResponseRest(p: Proxy, env: Env, v: View, k: nat): Outcome
    requires k <= |p.response|
  {
    ResponseFrom(p, env, k, ViewAt(p.response, v, k), SomeRejects(p.response, v, k))
  }

  lemma RejectsSoFar(hs: seq<Handler>, v: View, k: nat)
    requires k < |hs|
    ensures SomeRejects(hs, v, k + 1) <==> SomeRejects(hs, v, k) || VerdictAt(hs, v, k) == REJECT
  {
    if SomeRejects(hs, v, k) {
      var j :| 0 <= j < k && VerdictAt(hs, v, j) == REJECT;
      assert j < k + 1;
    }
  }

  lemma ResponseNext(p: Proxy, env: Env, v: View, k: nat)
    requires k < |p.response| && ResponsePasses(ViewAt(p.response, v, k + 1), VerdictAt(p.response, v, k))
    ensures ResponseRest(p, env, v, k) == After([CallResponse(k)], ResponseRest(p, env, v, k + 1))
  {
    RejectsSoFar(p.response, v, k);
    ResponseUnfold(p, env, k, ViewAt(p.response, v, k), SomeRejects(p.response, v, k));
  }

  lemma {:induction false} ResponsePrefix(p: Proxy, env: Env, v: View, k: nat)
    requires k <= |p.response|
    requires forall j :: 0 <= j < k ==> ResponsePasses(ViewAt(p.response, v, j + 1), VerdictAt(p.response, v, j))
    ensures ResponseFrom(p, env, 0, v, false) == After(ResponseCalls(k), ResponseRest(p, env, v, k))
    decreases k
  {
    if k == 0 {
      assert !SomeRejects(p.response, v, 0);
    } else {
      ResponsePrefix(p, env, v, k - 1);
      assert ResponsePasses(ViewAt(p.response, v, k - 1 + 1), VerdictAt(p.response, v, k - 1));
      ResponseNext(p, env, v, k - 1);
      AfterAfter(ResponseCalls(k - 1), [CallResponse(k - 1)], ResponseRest(p, env, v, k));
      assert ResponseCalls(k) == ResponseCalls(k - 1) + [CallResponse(k - 1)];
    }
  }

  /** No verdict of the chain but DONE and the panicking ones keeps a handler from being called;
      a single REJECT, wherever it is, replaces the response, and so does having none. */
  lemma ResponseOutcome(p: Proxy, env: Env, v: View, k: nat)
    requires StopsAt(p.response, v, ResponsePasses, k)
    ensures ResponseFrom(p, env, 0, v, false) ==
            if k == |p.response| then
              After(ResponseCalls(k),
                    Forwarded(p, env, Answered(ViewAt(p.response, v, k), SomeRejects(p.response, v, k))))
            else if VerdictAt(p.response, v, k) == DONE then
              After(ResponseCalls(k + 1) + [Handled], DoneChain(p, ViewAt(p.response, v, k + 1)))
            else
              Outcome(ViewAt(p.response, v, k + 1), ResponseCalls(k + 1), true)
  {
    ResponsePrefix(p, env, v, k);
    if k < |p.response| {
      var w := ViewAt(p.response, v, k + 1);
      assert ResponseCalls(k + 1) == ResponseCalls(k) + [CallResponse(k)];
      assert !ResponsePasses(w, VerdictAt(p.response, v, k));
      AfterAfter(ResponseCalls(k), [CallResponse(k)], After([Handled], DoneChain(p, w)));
      AfterAfter(ResponseCalls(k + 1), [Handled], DoneChain(p, w));
    }
  }

  // ----- the request chain -----

  predicate RequestPasses(w: View, d: Next) { d == NEXT || (d == FORWARD && w.resp.None?) }

  lemma {:induction false} RequestPrefix(p: Proxy, env: Env, v: View, k: nat)
    requires k <= |p.request|
    requires forall j :: 0 <= j < k ==> RequestPasses(ViewAt(p.request, v, j + 1), VerdictAt(p.request, v, j))
    ensures RequestFrom(p, env, 0, v) == After(RequestCalls(k), RequestFrom(p, env, k, ViewAt(p.request, v, k)))
    decreases k
  {
    if k > 0 {
      RequestPrefix(p, env, v, k - 1);
      assert RequestPasses(ViewAt(p.request, v, k), VerdictAt(p.request, v, k - 1));
      AfterAfter(RequestCalls(k - 1), [CallRequest(k - 1)], RequestFrom(p, env, k, ViewAt(p.request, v, k)));
      assert RequestCalls(k) == RequestCalls(k - 1) + [CallRequest(k - 1)];
    }
  }

  function Ending(p: Proxy, env: Env, w: View, d: Next): Outcome {
    if d == DONE then After([Handled], DoneChain(p, w))
    else if d == MOCK then ResponseFrom(p, env, 0, w, false)
    else if d == FORWARD && w.resp.Some? then Forwarded(p, env, w)
    else if d == REJECT then Forwarded(p, env, w.(resp := Some(Dummy(w.ext, REJECTED_REQUEST))))
    else Outcome(w, [], true)
  }

  lemma RequestUnfold(p: Proxy, env: Env, i: nat, v: View)
    requires i < |p.request|
    ensures var (w, d) := p.request[i](v);
            RequestFrom(p, env, i, v) ==
            After([CallRequest(i)], if RequestPasses(w, d) then RequestFrom(p, env, i + 1, w) else Ending(p, env, w, d))
  {
  }

  lemma RequestOutcome(p: Proxy, env: Env, v: View, k: nat)
    requires StopsAt(p.request, v, RequestPasses, k)
    ensures RequestFrom(p, env, 0, v) ==
            if k == |p.request| then After(RequestCalls(k), PastRequests(p, env, ViewAt(p.request, v, k)))
            else After(RequestCalls(k + 1), Ending(p, env, ViewAt(p.request, v, k + 1), VerdictAt(p.request, v, k)))
  {
    RequestPrefix(p, env, v, k);
    if k < |p.request| {
      var w, d := ViewAt(p.request, v, k + 1), VerdictAt(p.request, v, k);
      assert !RequestPasses(w, d);
      assert RequestCalls(k + 1) == RequestCalls(k) + [CallRequest(k)];
      AfterAfter(RequestCalls(k), [CallRequest(k)], Ending(p, env, w, d));
    }
  }

  // ----- FORWARD without a response is NEXT -----

  function Soft(h: Handler, asNext: (View, Next) -> bool): Handler {
    v => var (w, d) := h(v); (w, if asNext(w, d) then NEXT else d)
  }

  function SoftAll(hs: seq<Handler>, asNext: (View, Next) -> bool): (r: seq<Handler>)
    ensures |r| == |hs| && forall i :: 0 <= i < |hs| ==> r[i] == Soft(hs[i], asNext)
  {
    seq(|hs|, i requires 0 <= i < |hs| => Soft(hs[i], asNext))
  }

  predicate BareForward(w: View, d: Next) { d == FORWARD && w.resp.None? }
  predicate AnyForward(w: View, d: Next) { d == FORWARD }
  predicate ForwardOrMitm(w: View, d: Next) { d == FORWARD || d == MITM }

  /** FORWARD becomes NEXT: in a request handler where no response is set, elsewhere always. */
  function SoftProxy(p: Proxy): Proxy {
    Proxy(SoftAll(p.connect, ForwardOrMitm), SoftAll(p.request, BareForward),
          SoftAll(p.response, AnyForward), SoftAll(p.done, AnyForward))
  }

  lemma {:induction false} SoftDone(hs: seq<Handler>, i: nat, v: View)
    requires i <= |hs|
    ensures DoneFrom(SoftAll(hs, AnyForward), i, v) == DoneFrom(hs, i, v)
    decreases |hs| - i
  {
    if i < |hs| {
      SoftDone(hs, i + 1, hs[i](v).0);
    }
  }

  lemma SoftForwarded(p: Proxy, env: Env, v: View)
    requires v.resp.Some?
    ensures Forwarded(SoftProxy(p), env, v) == Forwarded(p, env, v)
  {
    SoftDone(p.done, 0, v);
  }

  lemma {:induction false} SoftResponse(p: Proxy, env: Env, i: nat, v: View, rejected: bool)
    requires i <= |p.response|
    ensures ResponseFrom(SoftProxy(p), env, i, v, rejected) == ResponseFrom(p, env, i, v, rejected)
    decreases |p.response| - i
  {
    if i == |p.response| {
      SoftForwarded(p, env, Answered(v, rejected));
    } else {
      var (w, d) := p.response[i](v);
      SoftDone(p.done, 0, w);
      SoftResponse(p, env, i + 1, w, rejected);
      SoftResponse(p, env, i + 1, w, true);
    }
  }

  lemma SoftEnding(p: Proxy, env: Env, w: View, d: Next)
    ensures Ending(SoftProxy(p), env, w, d) == Ending(p, env, w, d)
  {
    if d == DONE {
      SoftDone(p.done, 0, w);
    } else if d == MOCK {
      SoftResponse(p, env, 0, w, false);
    } else if d == FORWARD && w.resp.Some? {
      SoftForwarded(p, env, w);
    } else if d == REJECT {
      SoftForwarded(p, env, w.(resp := Some(Dummy(w.ext, REJECTED_REQUEST))));
    }
  }

  lemma {:induction false} SoftRequest(p: Proxy, env: Env, i: nat, v: View)
    requires i <= |p.request|
    ensures RequestFrom(SoftProxy(p), env, i, v) == RequestFrom(p, env, i, v)
    decreases |p.request| - i
  {
    if i == |p.request| {
      SoftResponse(p, env, 0, v.(resp := env.fetched, error := env.fetchError), false);
    } else {
      var (w, d) := p.request[i](v);
      if RequestPasses(w, d) {
        SoftRequest(p, env, i + 1, w);
      } else {
        SoftEnding(p, env, w, d);
      }
    }
  }

  lemma {:induction false} SoftConnect(hs: seq<Handler>, i: nat, v: View)
    requires i <= |hs|
    ensures ConnectFrom(SoftAll(hs, ForwardOrMitm), i, v) == ConnectFrom(hs, i, v)
    decreases |hs| - i
  {
    if i < |hs| {
      SoftConnect(hs, i + 1, hs[i](v).0);
    }
  }

  /** No chain ever tells FORWARD from NEXT, except a request handler's FORWARD with a response set. */
  lemma ForwardIsNext(p: Proxy, env: Env, v: View)
    ensures RequestFrom(SoftProxy(p), env, 0, v) == RequestFrom(p, env, 0, v)
    ensures ConnectFrom(SoftProxy(p).connect, 0, v) == ConnectFrom(p.connect, 0, v)
  {
    SoftRequest(p, env, 0, v);
    SoftConnect(p.connect, 0, v);
  }

  // ----- which request handlers are called -----

  predicate IsRequestCall(e: Event) { e.CallRequest? }

  lemma {:induction false} DoneCallsNoRequest(hs: seq<Handler>, i: nat, v: View)
    requires i <= |hs|
    ensures forall e :: e in DoneFrom(hs, i, v).log ==> !IsRequestCall(e)
    decreases |hs| - i
  {
    if i < |hs| {
      DoneCallsNoRequest(hs, i + 1, hs[i](v).0);
    }
  }

  lemma ForwardedCallsNoRequest(p: Proxy, env: Env, v: View)
    requires v.resp.Some?
    ensures forall e :: e in Forwarded(p, env, v).log ==> !IsRequestCall(e)
  {
    DoneCallsNoRequest(p.done, 0, v);
  }

  lemma {:induction false} ResponseCallsNoRequest(p: Proxy, env: Env, i: nat, v: View, rejected: bool)
    requires i <= |p.response|
    ensures forall e :: e in ResponseFrom(p, env, i, v, rejected).log ==> !IsRequestCall(e)
    decreases |p.response| - i
  {
    if i == |p.response| {
      ForwardedCallsNoRequest(p, env, Answered(v, rejected));
    } else {
      var (w, d) := p.response[i](v);
      DoneCallsNoRequest(p.done, 0, w);
      ResponseCallsNoRequest(p, env, i + 1, w, rejected);
      ResponseCallsNoRequest(p, env, i + 1, w, true);
    }
  }

  lemma EndingCallsNoRequest(p: Proxy, env: Env, w: View, d: Next)
    ensures forall e :: e in Ending(p, env, w, d).log ==> !IsRequestCall(e)
  {
    DoneCallsNoRequest(p.done, 0, w);
    ResponseCallsNoRequest(p, env, 0, w, false);
    ForwardedCallsNoRequest(p, env, w.(resp := Some(Dummy(w.ext, REJECTED_REQUEST))));
    if w.resp.Some? {
      ForwardedCallsNoRequest(p, env, w);
    }
  }

  /** Request handler k is called if and only if each one before it said NEXT, or FORWARD with no response set. */
  lemma CalledIffAllPass(p: Proxy, env: Env, v: View, k: nat)
    requires k < |p.request|
    ensures CallRequest(k) in RequestFrom(p, env, 0, v).log <==>
            forall j :: 0 <= j < k ==> RequestPasses(ViewAt(p.request, v, j + 1), VerdictAt(p.request, v, j))
  {
    var n := ChainStops(p.request, v, RequestPasses, 0);
    RequestOutcome(p, env, v, n);
    if n == |p.request| {
      assert RequestCalls(n)[k] == CallRequest(k);
    } else {
      var w, d := ViewAt(p.request, v, n + 1), VerdictAt(p.request, v, n);
      EndingCallsNoRequest(p, env, w, d);
      assert k <= n ==> RequestCalls(n + 1)[k] == CallRequest(k);
    }
  }

  /** A handler that says FORWARD keeps the next one from being called only if it leaves a response set. */
  lemma ForwardSkipsIffResponse(p: Proxy, env: Env, v: View, k: nat)
    requires k + 1 < |p.request| && CallRequest(k) in RequestFrom(p, env, 0, v).log
    requires VerdictAt(p.request, v, k) == FORWARD
    ensures CallRequest(k + 1) !in RequestFrom(p, env, 0, v).log <==> ViewAt(p.request, v, k + 1).resp.Some?
  {
    CalledIffAllPass(p, env, v, k);
    CalledIffAllPass(p, env, v, k + 1);
    assert RequestPasses(ViewAt(p.request, v, k + 1), FORWARD) <==> ViewAt(p.request, v, k + 1).resp.None?;
  }

  /** The first of two handlers says FORWARD and sets no response: the second one is called all the same. */
  lemma ForwardDoesNotSkip(env: Env, v: View)
    requires v.resp.None?
    ensures var first: Handler, second: Handler := (w: View) => (w, FORWARD), (w: View) => (w, NEXT);
            var p := Proxy([], [first, second], [], []);
            CallRequest(1) in RequestFrom(p, env, 0, v).log
  {
    var first: Handler, second: Handler := (w: View) => (w, FORWARD), (w: View) => (w, NEXT);
    var p := Proxy([], [first, second], [], []);
    assert ViewAt(p.request, v, 0) == v && ViewAt(p.request, v, 0 + 1) == v;
    CalledIffAllPass(p, env, v, 1);
  }

  // ----- the connect chain -----

  predicate ConnectPasses(w: View, d: Next) { d == NEXT || d == FORWARD || d == MITM }

  lemma {:induction false} ConnectPrefix(hs: seq<Handler>, v: View, k: nat)
    requires k <= |hs| && forall j :: 0 <= j < k ==> ConnectPasses(ViewAt(hs, v, j + 1), VerdictAt(hs, v, j))
    ensures ConnectFrom(hs, 0, v) == After(ConnectCalls(k), ConnectFrom(hs, k, ViewAt(hs, v, k)))
    decreases k
  {
    if k > 0 {
      ConnectPrefix(hs, v, k - 1);
      assert ConnectPasses(ViewAt(hs, v, k), VerdictAt(hs, v, k - 1));
      AfterAfter(ConnectCalls(k - 1), [CallConnect(k - 1)], ConnectFrom(hs, k, ViewAt(hs, v, k)));
      assert ConnectCalls(k) == ConnectCalls(k - 1) + [CallConnect(k - 1)];
    }
  }

  /** The tunnel is joined if and only if every connect handler says NEXT, FORWARD or MITM. */
  lemma ConnectOutcome(hs: seq<Handler>, v: View, k: nat)
    requires StopsAt(hs, v, ConnectPasses, k)
    ensures ConnectFrom(hs, 0, v) ==
            if k == |hs| then Outcome(ViewAt(hs, v, k), ConnectCalls(k) + [Joined], false)
            else
              var w, d := ViewAt(hs, v, k + 1), VerdictAt(hs, v, k);
              if d == DONE || d == SIGNATURE then Outcome(w, ConnectCalls(k + 1) + [LeftOpen], false)
              else if d == REJECT && w.verb == "CONNECT" then
                Outcome(w, ConnectCalls(k + 1) + [Refused(!w.sniffed)], false)
              else Outcome(w, ConnectCalls(k + 1), true)
  {
    ConnectPrefix(hs, v, k);
    if k < |hs| {
      var w, d := ViewAt(hs, v, k + 1), VerdictAt(hs, v, k);
      assert !ConnectPasses(w, d);
      assert ConnectCalls(k + 1) == ConnectCalls(k) + [CallConnect(k)];
      AfterAfter(ConnectCalls(k), [CallConnect(k)], Outcome(w, [LeftOpen], false));
      AfterAfter(ConnectCalls(k), [CallConnect(k)], Outcome(w, [Refused(!w.sniffed)], false));
      AfterAfter(ConnectCalls(k), [CallConnect(k)], Outcome(w, [], true));
    }
  }
}
