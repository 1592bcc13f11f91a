/** The ordinary life of a connection as a run of the model: a response whose body ends on an open connection. */
module PersistConnRuns {
  import opened Basics
  import opened PersistConn

  lemma {:induction false} RunAppend(s: State, actions: seq<Action>, t: State, a: Action)
    requires Run(s, actions, t) && Enabled(t, a)
    ensures Run(s, actions + [a], Apply(t, a))
    decreases |actions|
  {
    if actions == [] {
      assert [a][1..] == [];
      assert [] + [a] == [a];
    } else {
      assert (actions + [a])[1..] == actions[1..] + [a];
      RunAppend(Apply(s, actions[0]), actions[1..], t, a);
    }
  }

  lemma Then(t: State, a: Action) returns (u: State)
    requires Reachable(t) && Enabled(t, a)
    ensures Reachable(u) && u == Apply(t, a)
  {
    var s, actions :| Init(s, 2) && Run(s, actions, t);
    RunAppend(s, actions, t, a);
    u := Apply(t, a);
  }

  const OPEN := Conn(None, false, false, None, 0, false)

  const NO_CALLS := Body(2, [], false, None, true, None, [], 0, 0, 0)

  /** One reader, which has met the end of the body and told readLoop so. */
  const AT_EOF := Body(2, [true], false, Some(Eof), true, Some(0), [EofcWait], 1, 0, 0)

  function Asked(reqch: nat, gone: bool): Request {
    Request(reqch, false, ConnCanceler, false, false, gone, [])
  }

  /** The request has been handed to writeLoop, which has written one byte of it and reported. */
  function Wrote(reports: seq<Option<Err>>, done: bool): Sending {
    Sending(0, 1, 1, 0, reports, [None], None, done, true, true)
  }

  /** roundTrip and readLoop wait; `d` and `wl` say how far the request has got. */
  function Underway(d: Sending, wl: WriteLoop): State {
    State(OPEN.(numExpected := 1), d, Asked(1, false), NO_CALLS, Selecting(Watch(false, true, true)), Peeking, wl,
          true, false, Some(ReadLoopExiting), false)
  }

  lemma AfterEntry() returns (t: State)
    ensures Reachable(t)
    ensures t == State(OPEN, Sending(0, 0, 0, 0, [], [], None, false, false, false), Asked(0, false),
                       NO_CALLS, Expecting, Peeking, WaitingWork, true, false, Some(ReadLoopExiting), false)
  {
    t := State(OPEN, Sending(0, 0, 0, 0, [], [], None, false, false, false),
               Request(0, false, DialCanceler, false, false, false, []), NO_CALLS,
               Uncalled, Peeking, WaitingWork, true, false, Some(ReadLoopExiting), false);
    assert Init(t, 2) && Run(t, [], t);
    t := Then(t, Env(CallRoundTrip));
    t := Then(t, Rt(RtReplace));
  }

  lemma AfterSending() returns (t: State)
    ensures Reachable(t)
    ensures t == Underway(Sending(1, 0, 0, 0, [], [], None, false, true, false), WaitingWork)
  {
    t := AfterEntry();
    t := Then(t, Rt(RtExpect));
    t := Then(t, Rt(RtSendWrite));
    t := Then(t, Rt(RtSendReq));
  }

  lemma AfterConnWrite() returns (t: State)
    ensures Reachable(t)
    ensures t == Underway(Sending(0, 1, 1, 0, [], [], None, false, true, true), Writing(0))
  {
    t := AfterSending();
    t := Then(t, Wl(WlRecv));
    t := Then(t, Wl(WlConnWrite(1)));
    t := Then(t, Wl(WlCount));
  }

  lemma AfterWrite() returns (t: State)
    ensures Reachable(t)
    ensures t == Underway(Wrote([None], false), WaitingWork)
  {
    t := AfterConnWrite();
    t := Then(t, Wl(WlFinish(None, false)));
    t := Then(t, Wl(WlSendPcErr));
    t := Then(t, Wl(WlSendRtErr));
    t := Then(t, Wl(WlAfter));
  }

  /** The response is with the caller; `b` says how far its body has been read. */
  function Delivered(b: Body): State {
    State(OPEN, Wrote([None], false), Asked(0, true), b, Returned(Response(true)),
          AwaitingBody, WaitingWork, true, false, Some(ReadLoopExiting), false)
  }

  lemma AfterDelivery() returns (t: State)
    ensures Reachable(t)
    ensures t == Delivered(NO_CALLS)
  {
    t := AfterWrite();
    t := Then(t, Rl(RlPeek(None)));
    t := Then(t, Rl(RlCheck));
    t := Then(t, Rl(RlRecvReq(false)));
    t := Then(t, Rl(RlReadOk(true, true, false)));
    t := Then(t, Rl(RlExpectDown));
    t := Then(t, Rl(RlDeliverResponse));
    t := Then(t, Out(OutCloseGone));
  }

  lemma AfterRead() returns (t: State)
    ensures Reachable(t)
    ensures t == Delivered(NO_CALLS.(calls := [ReadFailed(Eof)]))
  {
    t := AfterDelivery();
    t := Then(t, Env(StartRead));
    t := Then(t, Bd(0, BdReadStart));
    t := Then(t, Bd(0, BdReadDone(Some(Eof), false)));
  }

  lemma AfterFailure() returns (t: State)
    ensures Reachable(t)
    ensures t == Delivered(Body(2, [], false, Some(Eof), true, Some(0), [FnSend(Some(Eof))], 1, 0, 0))
  {
    t := AfterRead();
    t := Then(t, Bd(0, BdReadFailed));
  }

  lemma AfterBody() returns (t: State)
    ensures Reachable(t)
    ensures t == Delivered(AT_EOF)
  {
    t := AfterFailure();
    t := Then(t, Bd(0, BdFnSend));
  }

  /** The body has ended, the connection has not: readLoop asks wroteRequest while the reader waits on eofc. */
  lemma BodyEndsOnOpenConnection() returns (t: State)
    ensures Reachable(t)
    ensures t.rl == BodyPut(true) && ConsultsWriter(t) && Enabled(t, Fin(FinPutRecv)) && Enabled(t, Fin(FinPutTimer))
    ensures t == State(OPEN, Wrote([None], false), Asked(0, true).(canceler := NoCanceler),
                       AT_EOF.(waitBody := [], received := 1), Returned(Response(true)),
                       BodyPut(true), WaitingWork, true, false, Some(ReadLoopExiting), false)
  {
    t := AfterBody();
    t := Then(t, Fin(FinRecvBody));
    t := Then(t, Fin(FinClear));
  }

  lemma AfterRelease() returns (t: State)
    ensures Reachable(t)
    ensures t == State(OPEN, Wrote([], false), Asked(0, true).(canceler := NoCanceler),
                       Body(2, [], false, Some(Eof), false, None, [CallDone], 1, 0, 1), Returned(Response(true)),
                       LoopEnd, WaitingWork, false, false, Some(KeepAlivesDisabled), false)
  {
    t := BodyEndsOnOpenConnection();
    t := Then(t, Fin(FinPutRecv));
    t := Then(t, Fin(FinSendEofc(0)));
  }

  /** From there the reader is released, and the connection ends with the error of the pool that keeps none. */
  lemma OrdinaryRunEnds() returns (t: State)
    ensures Reachable(t)
    ensures t.rl.Ended? && t.wl.WriterDone? && t.body.calls == [CallDone] && t.body.mu == None
    ensures t.conn.closed == TryPutIdleConn() && t.rt == Returned(Response(true))
  {
    t := AfterRelease();
    t := Then(t, Fin(FinLoopEnd));
    t := Then(t, Fin(FinCloseEofc));
    t := Then(t, Fin(FinCloseConn));
    t := Then(t, Wl(WlRecvClosech));
    t := Then(t, Wl(WlLeave));
  }

  lemma AfterEarlyClose() returns (t: State)
    ensures Reachable(t)
    ensures t == Delivered(Body(2, [false], true, None, true, None, [CallDone], 0, 1, 0))
  {
    t := AfterDelivery();
    t := Then(t, Env(StartClose));
    t := Then(t, Bd(0, BdCloseStart));
    t := Then(t, Bd(0, BdEarlySend));
  }

  lemma AfterHearing() returns (t: State)
    ensures Reachable(t)
    ensures t == State(OPEN, Wrote([None], false), Asked(0, true).(canceler := NoCanceler),
                       Body(2, [], true, None, true, None, [CallDone], 0, 1, 1), Returned(Response(true)),
                       LoopEnd, WaitingWork, false, false, Some(ReadLoopExiting), false)
  {
    t := AfterEarlyClose();
    t := Then(t, Fin(FinRecvBody));
    t := Then(t, Fin(FinClear));
    t := Then(t, Fin(FinPutSkip));
  }

  /** The caller closes the body unread: readLoop hears false, does not ask wroteRequest and ends. */
  lemma EarlyCloseEnds() returns (t: State)
    ensures Reachable(t)
    ensures t.rl.Ended? && t.body.earlyRuns == 1 && t.body.fnRuns == 0 && t.body.calls == [CallDone]
    ensures t.conn.closed == Some(ReadLoopExiting) && t.sending.pcWriteErr == [None]
  {
    t := AfterHearing();
    t := Then(t, Fin(FinLoopEnd));
    t := Then(t, Fin(FinCloseEofc));
    t := Then(t, Fin(FinCloseConn));
  }

  lemma AfterCancel() returns (t: State)
    ensures Reachable(t)
    ensures t == State(Conn(Some(RequestCanceled), true, true, Some(RequestCanceled), 1, false),
                       Sending(1, 0, 0, 0, [], [], None, false, true, false),
                       Asked(1, false).(canceler := NoCanceler), NO_CALLS,
                       Selecting(Watch(false, true, true)), Peeking, WaitingWork,
                       true, false, Some(ReadLoopExiting), false)
  {
    t := AfterSending();
    t := Then(t, Env(TakeCanceler));
    t := Then(t, Env(RunCancel(0)));
  }

  /** A request that is cancelled from outside before anything was written returns the error of the cancel. */
  lemma CanceledReturns() returns (t: State)
    ensures Reachable(t)
    ensures t.rt == Returned(Failure(RequestCanceled)) && t.sending.wire == 0
  {
    t := AfterCancel();
    t := Then(t, Rt(RtRecvClosech));
    t := Then(t, Out(OutMapCanceled));
    t := Then(t, Out(OutLeave));
    t := Then(t, Out(OutCloseGone));
  }
}
