/** What every dispatched request does exactly once. */
module DispatchCounts {
  import opened Basics
  import opened Dispatch
  import opened DispatchTheorems

  /** Ended: the request is answered or out of the dispatchers' hands, by ForwardResponse, by ForwardRequest
      or by a DONE verdict. Missed: a reason for not starting the done chain. */
  datatype Kind = Ended | Replied | Started | Missed

  predicate Is(e: Event, k: Kind) {
    match k
    case Ended => e.Sent? || e.Handled? || e.Tunnelled?
    case Replied => e.Sent?
    case Started => e.DoneStarts?
    case Missed => e.Tunnelled? || e.MitmFailed?
  }

  function Count(log: seq<Event>, k: Kind): nat {
    if log == [] then 0 else (if Is(log[0], k) then 1 else 0) + Count(log[1..], k)
  }

  lemma First(e: Event, o: Outcome, k: Kind)
    ensures Count(After([e], o).log, k) == (if Is(e, k) then 1 else 0) + Count(o.log, k)
  {
    assert ([e] + o.log)[1..] == o.log;
  }

  lemma {:induction false} DoneOnlyCalls(hs: seq<Handler>, i: nat, v: View, k: Kind)
    requires i <= |hs|
    ensures Count(DoneFrom(hs, i, v).log, k) == 0
    decreases |hs| - i
  {
    if i < |hs| {
      var (w, verdict) := hs[i](v);
      DoneOnlyCalls(hs, i + 1, w, k);
      if verdict == NEXT || verdict == FORWARD {
        First(CallDone(i), DoneFrom(hs, i + 1, w), k);
      } else {
        First(CallDone(i), Outcome(w, [], verdict == MITM || verdict == REJECT), k);
      }
    }
  }

  lemma DoneChainCount(p: Proxy, v: View, k: Kind)
    ensures Count(DoneChain(p, v).log, k) == if k == Started then 1 else 0
  {
    DoneOnlyCalls(p.done, 0, v, k);
    First(DoneStarts, DoneFrom(p.done, 0, v), k);
  }

  lemma HandledCount(p: Proxy, v: View, k: Kind)
    ensures Count(After([Handled], DoneChain(p, v)).log, k) == if k == Ended || k == Started then 1 else 0
  {
    DoneChainCount(p, v, k);
    First(Handled, DoneChain(p, v), k);
  }

  lemma ForwardedCount(p: Proxy, env: Env, v: View, k: Kind)
    requires v.resp.Some?
    ensures var n, cut := Count(Forwarded(p, env, v).log, k), v.throughMITM && v.secure && env.failing.Some?;
            && (k == Ended || k == Replied ==> n == 1)
            && (k == Started ==> n == if cut then 0 else 1)
            && (k == Missed ==> n == if cut then 1 else 0)
  {
    if Cut(env, v) {
      var o := Outcome(v, [MitmFailed(env.failing.value)], false);
      assert o == After([MitmFailed(env.failing.value)], Outcome(v, [], false));
      First(MitmFailed(env.failing.value), Outcome(v, [], false), k);
      First(Sent(v.resp.value), o, k);
    } else {
      DoneChainCount(p, v, k);
      First(Sent(v.resp.value), DoneChain(p, v), k);
    }
  }

  /** One end, and one start of the done chain or one reason against it. */
  predicate Balanced(log: seq<Event>) {
    Count(log, Ended) == 1 && Count(log, Replied) <= 1 && Count(log, Started) + Count(log, Missed) == 1
  }

  /** Balanced; or nothing of all these before a handler of the request or the response makes a dispatcher panic. */
  predicate Tidy(o: Outcome) { Balanced(o.log) || (o.panicked && forall k :: Count(o.log, k) == 0) }

  lemma CallKeepsTidy(e: Event, o: Outcome)
    requires Tidy(o) && forall k :: !Is(e, k)
    ensures Tidy(After([e], o))
  {
    forall k ensures Count(After([e], o).log, k) == Count(o.log, k) {
      First(e, o, k);
    }
  }

  lemma HandledTidy(p: Proxy, v: View)
    ensures Tidy(After([Handled], DoneChain(p, v)))
  {
    HandledCount(p, v, Ended);
    HandledCount(p, v, Replied);
    HandledCount(p, v, Started);
    HandledCount(p, v, Missed);
  }

  lemma ForwardedTidy(p: Proxy, env: Env, v: View)
    requires v.resp.Some?
    ensures Tidy(Forwarded(p, env, v))
  {
    ForwardedCount(p, env, v, Ended);
    ForwardedCount(p, env, v, Replied);
    ForwardedCount(p, env, v, Started);
    ForwardedCount(p, env, v, Missed);
  }

  lemma PanicTidy(w: View)
    ensures Tidy(Outcome(w, [], true))
  {
  }

  lemma {:induction false} ResponseTidy(p: Proxy, env: Env, i: nat, v: View, rejected: bool)
    requires i <= |p.response|
    ensures Tidy(ResponseFrom(p, env, i, v, rejected))
    decreases |p.response| - i
  {
    if i == |p.response| {
      ForwardedTidy(p, env, Answered(v, rejected));
    } else {
      var (w, verdict) := p.response[i](v);
      match verdict
      case DONE =>
        HandledTidy(p, w);
        CallKeepsTidy(CallResponse(i), After([Handled], DoneChain(p, w)));
      case NEXT =>
        ResponseTidy(p, env, i + 1, w, rejected);
        CallKeepsTidy(CallResponse(i), ResponseFrom(p, env, i + 1, w, rejected));
      case FORWARD =>
        ResponseTidy(p, env, i + 1, w, rejected);
        CallKeepsTidy(CallResponse(i), ResponseFrom(p, env, i + 1, w, rejected));
      case SIGNATURE =>
        ResponseTidy(p, env, i + 1, w, rejected);
        CallKeepsTidy(CallResponse(i), ResponseFrom(p, env, i + 1, w, rejected));
      case REJECT =>
        ResponseTidy(p, env, i + 1, w, true);
        CallKeepsTidy(CallResponse(i), ResponseFrom(p, env, i + 1, w, true));
      case _ =>
        PanicTidy(w);
        CallKeepsTidy(CallResponse(i), Outcome(w, [], true));
    }
  }

  lemma PastRequestsTidy(p: Proxy, env: Env, v: View)
    ensures Tidy(PastRequests(p, env, v))
  {
    if v.tunnel {
      var none := Outcome(v, [], false);
      assert PastRequests(p, env, v) == After([Tunnelled], none);
      First(Tunnelled, none, Ended);
      First(Tunnelled, none, Replied);
      First(Tunnelled, none, Started);
      First(Tunnelled, none, Missed);
    } else {
      var w := v.(resp := env.fetched, error := env.fetchError);
      ResponseTidy(p, env, 0, w, false);
      CallKeepsTidy(Fetched, ResponseFrom(p, env, 0, w, false));
    }
  }

  lemma EndingTidy(p: Proxy, env: Env, w: View, d: Next)
    ensures Tidy(Ending(p, env, w, d))
  {
    if d == DONE {
      HandledTidy(p, w);
    } else if d == MOCK {
      ResponseTidy(p, env, 0, w, false);
    } else if d == FORWARD && w.resp.Some? {
      ForwardedTidy(p, env, w);
    } else if d == REJECT {
      ForwardedTidy(p, env, w.(resp := Some(Dummy(w.ext, REJECTED_REQUEST))));
    } else {
      PanicTidy(w);
    }
  }

  lemma {:induction false} RequestTidy(p: Proxy, env: Env, i: nat, v: View)
    requires i <= |p.request|
    ensures Tidy(RequestFrom(p, env, i, v))
    decreases |p.request| - i
  {
    if i == |p.request| {
      PastRequestsTidy(p, env, v);
    } else {
      var (w, d) := p.request[i](v);
      RequestUnfold(p, env, i, v);
      if RequestPasses(w, d) {
        RequestTidy(p, env, i + 1, w);
        CallKeepsTidy(CallRequest(i), RequestFrom(p, env, i + 1, w));
      } else {
        EndingTidy(p, env, w, d);
        CallKeepsTidy(CallRequest(i), Ending(p, env, w, d));
      }
    }
  }

  lemma {:induction false} CountZero(log: seq<Event>, k: Kind)
    ensures Count(log, k) == 0 <==> forall e :: e in log ==> !Is(e, k)
    decreases |log|
  {
    if log != [] {
      CountZero(log[1..], k);
      assert forall e :: e in log <==> e == log[0] || e in log[1..];
    }
  }

  /** A request that makes no dispatcher panic has one terminal action, at most one ForwardResponse, and
      starts the done chain once, or not at all if it was tunnelled or a write to a MITM client failed. */
  lemma DispatchedOnce(p: Proxy, env: Env, v: View)
    requires !RequestFrom(p, env, 0, v).panicked
    ensures var log := RequestFrom(p, env, 0, v).log;
            && Count(log, Ended) == 1 && Count(log, Replied) <= 1 && Count(log, Started) <= 1
            && (Count(log, Started) == 1 <==> forall e :: e in log ==> !e.Tunnelled? && !e.MitmFailed?)
  {
    RequestTidy(p, env, 0, v);
    CountZero(RequestFrom(p, env, 0, v).log, Missed);
  }
}
