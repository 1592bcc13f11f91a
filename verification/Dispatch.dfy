/** The handler chains of dispatcher.go and ctx.go. */
module Dispatch {
  import opened Basics

  datatype Next = NEXT | MOCK | DONE | FORWARD | MITM | REJECT | SIGNATURE | Other(value: int)

  datatype Body = Script | Image | Page(title: string, code: string) | Site(content: string)

  datatype Resp = Resp(status: nat, body: Body)

  /** The fields of ProxyCtx that the dispatchers read: Resp, ResponseError, TunnelRequest,
      IsThroughMITM, IsSecure, Method, sniffedTLS, and the extension of the request's path. */
  datatype View = View(
    resp: Option<Resp>, error: Option<string>, tunnel: bool, throughMITM: bool, secure: bool,
    verb: string, sniffed: bool, ext: string)

  /** What a handler does to the context, and its verdict. A chain calls a handler at most once,
      so one function from the view says all that a handler with a memory of its own could do. */
  type Handler = View -> (View, Next)

  datatype Proxy = Proxy(connect: seq<Handler>, request: seq<Handler>, response: seq<Handler>, done: seq<Handler>)

  /** The writes of forwardMITMResponse, in order. */
  datatype MitmWrite = Status | Header | Blank | Content | Trailer

  /** Chance: what RoundTrip brings, and the first step of forwardMITMResponse that fails. */
  datatype Env = Env(fetched: Option<Resp>, fetchError: Option<string>, failing: Option<MitmWrite>)

  datatype Event =
    | CallConnect(i: nat) | CallRequest(i: nat) | CallResponse(i: nat) | CallDone(i: nat)
    | Fetched             // ForwardHTTPRequest
    | Tunnelled           // ForwardRequest
    | Handled             // a DONE verdict
    | Sent(resp: Resp)    // ForwardResponse
    | MitmFailed(write: MitmWrite)
    | DoneStarts          // DispatchDoneHandlers
    | Refused(told: bool) // RejectConnect, with or without a 502 line
    | LeftOpen            // dispatchConnectHandlers returns at DONE or SIGNATURE
    | Joined              // ForwardConnect

  datatype Outcome = Outcome(view: View, log: seq<Event>, panicked: bool)

  /** The outcome of what comes after `log`. */
  function After(log: seq<Event>, o: Outcome): Outcome { o.(log := log + o.log) }

  lemma AfterAfter(a: seq<Event>, b: seq<Event>, o: Outcome)
    ensures After(a, After(b, o)) == After(a + b, o)
  {
    assert a + (b + o.log) == a + b + o.log;
  }

  // ----- what the chains are specified to do -----

  function DoneFrom(hs: seq<Handler>, i: nat, v: View): Outcome
    requires i <= |hs|
    decreases |hs| - i
  {
    if i == |hs| then Outcome(v, [], false)
    else
      var (w, verdict) := hs[i](v);
      After([CallDone(i)],
            if verdict == NEXT || verdict == FORWARD then DoneFrom(hs, i + 1, w)
            else Outcome(w, [], verdict == MITM || verdict == REJECT))
  }

  function DoneChain(p: Proxy, v: View): Outcome { After([DoneStarts], DoneFrom(p.done, 0, v)) }

  /** forwardMITMResponse gives up before the done chain. */
  predicate Cut(env: Env, v: View) { v.throughMITM && v.secure && env.failing.Some? }

  function Forwarded(p: Proxy, env: Env, v: View): Outcome
    requires v.resp.Some?
  {
    After([Sent(v.resp.value)],
          if Cut(env, v) then Outcome(v, [MitmFailed(env.failing.value)], false)
          else DoneChain(p, v))
  }

  const BLOCKED_CODE := "504 Blocked by Winston"
  const UNKNOWN_AUTHORITY := "x509: certificate signed by unknown authority"

  /** The reply to a rejected request or response. */
  function Dummy(ext: string, blocked: Resp): Resp {
    if ext == ".js" then Resp(502, Script)
    else if ext == ".png" || ext == ".gif" then Resp(403, Image)
    else blocked
  }

  function NoResponsePage(error: Option<string>): Resp {
    Resp(504,
         if error.None? then Page("Tracker Blocked", BLOCKED_CODE)
         else if error.value == UNKNOWN_AUTHORITY then
           Page("Website blocked", "Certificate signed by unknown authority")
         else Page("Network error", error.value))
  }

  const REJECTED_REQUEST := Resp(504, Page("Tracker Blocked", BLOCKED_CODE))
  const REJECTED_RESPONSE := Resp(502, Page("Tracker Blocked", "502.2 Blocked by Winston"))

  /** The view from which the response is sent once all handlers have been called. */
  function Answered(v: View, rejected: bool): (w: View)
    ensures w.resp.Some?
  {
    if rejected then v.(resp := Some(Dummy(v.ext, REJECTED_RESPONSE)))
    else if v.resp.None? then v.(resp := Some(NoResponsePage(v.error)))
    else v
  }

  function ResponseFrom(p: Proxy, env: Env, i: nat, v: View, rejected: bool): Outcome
    requires i <= |p.response|
    decreases |p.response| - i
  {
    if i == |p.response| then Forwarded(p, env, Answered(v, rejected))
    else
      var (w, verdict) := p.response[i](v);
      After([CallResponse(i)],
            match verdict
            case DONE => After([Handled], DoneChain(p, w))
            case NEXT => ResponseFrom(p, env, i + 1, w, rejected)
            case FORWARD => ResponseFrom(p, env, i + 1, w, rejected)
            case SIGNATURE => ResponseFrom(p, env, i + 1, w, rejected)
            case REJECT => ResponseFrom(p, env, i + 1, w, true)
            case _ => Outcome(w, [], true))
  }

  /** All request handlers have been called and none has stopped the chain. */
  function PastRequests(p: Proxy, env: Env, v: View): Outcome {
    if v.tunnel then Outcome(v, [Tunnelled], false)
    else After([Fetched], ResponseFrom(p, env, 0, v.(resp := env.fetched, error := env.fetchError), false))
  }

  function RequestFrom(p: Proxy, env: Env, i: nat, v: View): Outcome
    requires i <= |p.request|
    decreases |p.request| - i
  {
    if i == |p.request| then PastRequests(p, env, v)
    else
      var (w, verdict) := p.request[i](v);
      After([CallRequest(i)],
            match verdict
            case DONE => After([Handled], DoneChain(p, w))
            case MOCK => ResponseFrom(p, env, 0, w, false)
            case NEXT => RequestFrom(p, env, i + 1, w)
            case FORWARD => if w.resp.Some? then Forwarded(p, env, w) else RequestFrom(p, env, i + 1, w)
            case REJECT => Forwarded(p, env, w.(resp := Some(Dummy(w.ext, REJECTED_REQUEST))))
            case _ => Outcome(w, [], true))
  }

  function ConnectFrom(hs: seq<Handler>, i: nat, v: View): Outcome
    requires i <= |hs|
    decreases |hs| - i
  {
    if i == |hs| then Outcome(v, [Joined], false)
    else
      var (w, verdict) := hs[i](v);
      After([CallConnect(i)],
            match verdict
            case NEXT => ConnectFrom(hs, i + 1, w)
            case FORWARD => ConnectFrom(hs, i + 1, w)
            case MITM => ConnectFrom(hs, i + 1, w)
            case REJECT =>
              if w.verb == "CONNECT" then Outcome(w, [Refused(!w.sniffed)], false) else Outcome(w, [], true)
            case SIGNATURE => Outcome(w, [LeftOpen], false)
            case DONE => Outcome(w, [LeftOpen], false)
            case _ => Outcome(w, [], true))
  }

  // ----- the objects -----

  class ProxyCtx {
    const proxy: Proxy
    const env: Env
    var view: View
    var log: seq<Event>
    var panicked: bool

    function Now(): Outcome
      reads this
    {
      Outcome(view, log, panicked)
    }

    constructor (proxy: Proxy, env: Env, view: View)
      ensures this.proxy == proxy && this.env == env && Now() == Outcome(view, [], false)
    {
      this.proxy, this.env, this.view := proxy, env, view;
      log, panicked := [], false;
    }

    method DispatchDoneHandlers()
      requires !panicked
      modifies this
      ensures Now() == After(old(log), DoneChain(proxy, old(view)))
    {
      log := log + [DoneStarts];
      AfterAfter(old(log), [DoneStarts], DoneFrom(proxy.done, 0, view));
      var i := 0;
      while i < |proxy.done|
        invariant 0 <= i <= |proxy.done| && !panicked
        invariant After(log, DoneFrom(proxy.done, i, view)) == After(old(log), DoneChain(proxy, old(view)))
      {
        ghost var before, from := log, DoneFrom(proxy.done, i, view);
        var (w, verdict) := proxy.done[i](view);
        view, log := w, log + [CallDone(i)];
        AfterAfter(before, [CallDone(i)], DoneFrom(proxy.done, i + 1, w));
        match verdict {
          case NEXT => i := i + 1; continue;
          case FORWARD => i := i + 1; continue;
          case MITM => panicked := true; return;
          case REJECT => panicked := true; return;
          case _ => return;
        }
      }
    }

    method ForwardResponse(resp: Resp) returns (err: Option<MitmWrite>)
      requires !panicked && view.resp == Some(resp)
      modifies this
      ensures Now() == After(old(log), Forwarded(proxy, env, old(view)))
      ensures err == if old(view).throughMITM && old(view).secure then env.failing else None
    {
      log := log + [Sent(resp)];
      AfterAfter(old(log), [Sent(resp)], DoneChain(proxy, view));
      if view.throughMITM && view.secure {
        if env.failing.Some? {
          log := log + [MitmFailed(env.failing.value)];
          return env.failing;
        }
      }
      DispatchDoneHandlers();
      err := None;
    }

    method DispatchResponseHandlers()
      requires !panicked
      modifies this
      ensures Now() == After(old(log), ResponseFrom(proxy, env, 0, old(view), false))
    {
      var rejected := false;
      var i := 0;
      while i < |proxy.response|
        invariant 0 <= i <= |proxy.response| && !panicked
        invariant After(log, ResponseFrom(proxy, env, i, view, rejected)) ==
                  After(old(log), ResponseFrom(proxy, env, 0, old(view), false))
      {
        ghost var before := log;
        var (w, verdict) := proxy.response[i](view);
        view, log := w, log + [CallResponse(i)];
        match verdict {
          case DONE =>
            log := log + [Handled];
            AfterAfter(before, [CallResponse(i)], After([Handled], DoneChain(proxy, w)));
            AfterAfter(before + [CallResponse(i)], [Handled], DoneChain(proxy, w));
            DispatchDoneHandlers();
            return;
          case NEXT => AfterAfter(before, [CallResponse(i)], ResponseFrom(proxy, env, i + 1, w, rejected));
          case FORWARD => AfterAfter(before, [CallResponse(i)], ResponseFrom(proxy, env, i + 1, w, rejected));
          case SIGNATURE => AfterAfter(before, [CallResponse(i)], ResponseFrom(proxy, env, i + 1, w, rejected));
          case REJECT =>
            AfterAfter(before, [CallResponse(i)], ResponseFrom(proxy, env, i + 1, w, true));
            rejected := true;
          case _ => panicked := true; return;
        }
        i := i + 1;
      }
      if rejected {
        view := view.(resp := Some(Dummy(view.ext, REJECTED_RESPONSE)));
      } else if view.resp.None? {
        view := view.(resp := Some(NoResponsePage(view.error)));
      }
      var err := ForwardResponse(view.resp.value);
    }

    method DispatchRequestHandlers()
      requires !panicked
      modifies this
      ensures Now() == After(old(log), RequestFrom(proxy, env, 0, old(view)))
    {
      var i := 0;
      while i < |proxy.request|
        invariant 0 <= i <= |proxy.request| && !panicked
        invariant After(log, RequestFrom(proxy, env, i, view)) == After(old(log), RequestFrom(proxy, env, 0, old(view)))
      {
        ghost var before := log;
        var (w, verdict) := proxy.request[i](view);
        view, log := w, log + [CallRequest(i)];
        match verdict {
          case DONE =>
            log := log + [Handled];
            AfterAfter(before, [CallRequest(i)], After([Handled], DoneChain(proxy, w)));
            AfterAfter(before + [CallRequest(i)], [Handled], DoneChain(proxy, w));
            DispatchDoneHandlers();
            return;
          case MOCK =>
            AfterAfter(before, [CallRequest(i)], ResponseFrom(proxy, env, 0, w, false));
            DispatchResponseHandlers();
            return;
          case NEXT => AfterAfter(before, [CallRequest(i)], RequestFrom(proxy, env, i + 1, w));
          case FORWARD =>
            if view.resp.Some? {
              AfterAfter(before, [CallRequest(i)], Forwarded(proxy, env, w));
              var err := ForwardResponse(view.resp.value);
              return;
            }
            AfterAfter(before, [CallRequest(i)], RequestFrom(proxy, env, i + 1, w));
          case REJECT =>
            view := view.(resp := Some(Dummy(view.ext, REJECTED_REQUEST)));
            AfterAfter(before, [CallRequest(i)], Forwarded(proxy, env, view));
            var err := ForwardResponse(view.resp.value);
            return;
          case _ => panicked := true; return;
        }
        i := i + 1;
      }
      if view.tunnel {
        log := log + [Tunnelled];
      } else {
        ghost var before := log;
        log := log + [Fetched];
        view := view.(resp := env.fetched, error := env.fetchError);
        AfterAfter(before, [Fetched], ResponseFrom(proxy, env, 0, view, false));
        DispatchResponseHandlers();
      }
    }

    /** The connection has been hijacked. */
    method DispatchConnectHandlers()
      requires !panicked
      modifies this
      ensures Now() == After(old(log), ConnectFrom(proxy.connect, 0, old(view)))
    {
      var i := 0;
      while i < |proxy.connect|
        invariant 0 <= i <= |proxy.connect| && !panicked
        invariant After(log, ConnectFrom(proxy.connect, i, view)) ==
                  After(old(log), ConnectFrom(proxy.connect, 0, old(view)))
      {
        ghost var before := log;
        var (w, verdict) := proxy.connect[i](view);
        view, log := w, log + [CallConnect(i)];
        AfterAfter(before, [CallConnect(i)], ConnectFrom(proxy.connect, i + 1, w));
        AfterAfter(before, [CallConnect(i)], Outcome(w, [LeftOpen], false));
        AfterAfter(before, [CallConnect(i)], Outcome(w, [Refused(!w.sniffed)], false));
        match verdict {
          case NEXT =>
          case FORWARD =>
          case MITM =>
          case REJECT =>
            if view.verb == "CONNECT" {
              log := log + [Refused(!view.sniffed)];
            } else {
              panicked := true;
            }
            return;
          case SIGNATURE => log := log + [LeftOpen]; return;
          case DONE => log := log + [LeftOpen]; return;
          case _ => panicked := true; return;
        }
        i := i + 1;
      }
      log := log + [Joined];
    }
  }
}
