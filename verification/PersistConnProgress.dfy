/** No goroutine of a connection waits for another one forever, and every run ends. */
module PersistConnProgress {
  import opened Basics
  import opened PersistConn
  import opened PersistConnSafety

  datatype Proc = Caller | Reader | Writer | BodyCall(i: nat)

  predicate Exists(s: State, p: Proc) { p.BodyCall? ==> p.i < |s.body.calls| }

  predicate Finished(s: State, p: Proc)
    requires Exists(s, p)
  {
    match p
    case Caller => s.rt.Abandoned? || s.rt.Refused? || s.rt.Returned?
    case Reader => s.rl.Ended?
    case Writer => s.wl.WriterDone?
    case BodyCall(i) => s.body.calls[i].CallDone?
  }

  /** The goroutine is inside a call on the connection or on the body it wraps, or waits for a timer that runs. */
  predicate AtNetwork(s: State, p: Proc)
    requires Exists(s, p)
  {
    match p
    case Caller => false
    case Reader => s.rl.Peeking? || s.rl.Reading? || ConsultsWriter(s)
    case Writer => s.wl.Writing?
    case BodyCall(i) => s.body.calls[i].BodyRead? || s.body.calls[i].BodyClose?
  }

  /** Only the caller can move it on: it has not called roundTrip, or not yet used up the body. */
  predicate AtCaller(s: State, p: Proc) {
    (p.Caller? && s.rt.Uncalled?) || (p.Reader? && s.rl.AwaitingBody?)
  }

  /** Steps that need neither the network, nor a timer, nor a new decision of the caller. */
  ghost predicate CanStep(s: State, p: Proc)
    requires Exists(s, p)
  {
    match p
    case Caller => (exists a :: RtEnabled(s, a) && !a.RtTimer?) || (exists a :: OutEnabled(s, a))
    case Reader => (exists a :: RlEnabled(s, a) && !a.RlPeek? && !a.RlReadFailed? && !a.RlReadOk?)
                   || (exists a :: FinEnabled(s, a) && !a.FinPutTimer?)
    case Writer => exists a :: WlEnabled(s, a) && !a.WlConnWrite? && !a.WlFinish?
    case BodyCall(i) => exists a :: BodyEnabled(s.body, s.eofcClosed, i, a) && !a.BdReadDone? && !a.BdCloseDone?
  }

  /** Blocked: on a channel or on es.mu, with no step of its own. */
  ghost predicate Blocked(s: State, p: Proc)
    requires Exists(s, p)
  {
    !Finished(s, p) && !CanStep(s, p) && !AtNetwork(s, p) && !AtCaller(s, p)
  }

  /** readLoop offers a reply that the caller is not there to take. */
  predicate Offering(s: State) {
    (s.rl.SendingError? || s.rl.SendingResponse?) && !s.rt.Selecting? && !s.req.gone
  }

  /**
   * p cannot go on with what it is at before q does its part: q has the other end of the channel, is to
   * close it, or holds es.mu. A goroutine in a select waits for each one that can end it.
   */
  predicate WaitsFor(s: State, p: Proc, q: Proc) {
    Exists(s, p) && Exists(s, q) && p != q &&
    match p
    case Caller =>
      || (s.rt.Selecting? && !s.conn.closech && q.Reader? && !s.rl.Ended?)
      || (s.rt.Selecting? && !s.conn.closech && s.sending.rtWriteErr == [] && q.Writer? && !s.wl.WriterDone?)
      || (s.rt.SendingWrite? && s.sending.writech > 0 && q.Writer?)
      || (s.rt.SendingReq? && s.req.reqch > 0 && q.Reader?)
      || (s.rt.AwaitingWriter? && !s.sending.writeLoopDone && q.Writer?)
    case Reader =>
      || (s.rl.ReceivingReq? && s.req.reqch == 0 && q.Caller?)
      || (Offering(s) && q.Caller?)
      || (s.rl.SendingEofc? && q.BodyCall? && s.body.calls[q.i].FnSend?)
    case Writer =>
      || (s.wl.WaitingWork? && s.sending.writech == 0 && !s.conn.closech && q.Caller? && !SentWrite(s.rt))
      || (s.wl.WaitingWork? && s.sending.writech == 0 && !s.conn.closech && q.Reader? && !s.rl.Ended?)
      || (s.wl.SendingPcErr? && s.sending.pcWriteErr != [] && q.Reader?)
      || (s.wl.SendingRtErr? && s.sending.rtWriteErr != [] && q.Caller?)
    case BodyCall(i) =>
      var c := s.body.calls[i];
      || ((c.ReadStart? || c.ReadFailed? || c.CloseStart?) && q.BodyCall? && s.body.mu == Some(q.i))
      || ((c.FnSend? || c.EarlySend?) && |s.body.waitBody| >= s.body.cap && q.Reader?)
      || (c.EofcWait? && !s.eofcClosed && q.Reader?)
  }

  predicate WaitPath(s: State, path: seq<Proc>) {
    forall k :: 0 <= k < |path| - 1 ==> WaitsFor(s, path[k], path[k + 1])
  }

  ghost predicate Moves(s: State, q: Proc) {
    Exists(s, q) && !Finished(s, q) && (CanStep(s, q) || AtNetwork(s, q) || AtCaller(s, q))
  }

  /** A chain of waits of one or two links to a goroutine that moves; it does not come back to where it was. */
  ghost predicate Served(s: State, path: seq<Proc>) {
    && 2 <= |path| <= 3 && WaitPath(s, path) && Moves(s, path[|path| - 1])
    && path[0] != path[|path| - 1]
  }

  lemma CallerMoves(s: State)
    requires Inv(s) && !Finished(s, Caller) && !s.rt.Selecting? && !s.rt.AwaitingWriter?
    ensures CanStep(s, Caller) || AtCaller(s, Caller)
  {
    match s.rt
    case Uncalled =>
    case Entered => assert RtEnabled(s, RtReplace);
    case Expecting => assert RtEnabled(s, RtExpect);
    case SendingWrite => assert RtEnabled(s, RtSendWrite);
    case SendingReq => assert RtEnabled(s, RtSendReq);
    case TakingCancel(_, _) => assert RtEnabled(s, RtTakeCancel);
    case CallingCancel(_, _) => assert RtEnabled(s, RtCallCancel);
    case WriteError(_) => assert RtEnabled(s, RtCloseWriteError);
    case TimedOut => assert RtEnabled(s, RtCloseTimeout);
    case MapCanceled(_) => assert OutEnabled(s, OutMapCanceled);
    case MapRequestError(_) => assert OutEnabled(s, OutMapRequestError);
    case MapBroken(_) => assert OutEnabled(s, OutMapBroken);
    case Leaving(_) => assert OutEnabled(s, OutLeave);
    case ClosingGone(_) => assert OutEnabled(s, OutCloseGone);
  }

  lemma ReaderMoves(s: State)
    requires Inv(s) && !Finished(s, Reader) && !Offering(s)
    requires s.rl.ReceivingReq? ==> SentBoth(s.rt)
    ensures CanStep(s, Reader) || AtNetwork(s, Reader) || AtCaller(s, Reader)
  {
    match s.rl
    case Peeking =>
    case Checking(_) => assert RlEnabled(s, RlCheck);
    case ReceivingReq(_) => assert RlEnabled(s, RlRecvReq(false));
    case Reading =>
    case SendingError(_) => assert RlEnabled(s, if s.rt.Selecting? then RlDeliverError else RlCallerGone);
    case GotResponse(_) => assert RlEnabled(s, RlExpectDown);
    case NoBodyClear => assert FinEnabled(s, FinClear);
    case NoBodyPut => assert ConsultsWriter(s) || FinEnabled(s, FinPutSkip);
    case SendingResponse(_) => assert RlEnabled(s, if s.rt.Selecting? then RlDeliverResponse else RlCallerGone);
    case AwaitingBody =>
    case BodyClear(_) => assert FinEnabled(s, FinClear);
    case BodyPut(_) => assert ConsultsWriter(s) || FinEnabled(s, FinPutSkip);
    case SendingEofc => assert FinEnabled(s, FinSendEofc(s.body.mu.value));
    case TakingCancelRL(_) => assert FinEnabled(s, FinTakeCancel);
    case CallingCancelRL(_) => assert FinEnabled(s, FinCallCancel);
    case LoopEnd => assert FinEnabled(s, FinLoopEnd);
    case Exiting => assert FinEnabled(s, FinCloseEofc);
    case ClosingConn => assert FinEnabled(s, FinCloseConn);
  }

  lemma WriterMoves(s: State)
    requires Inv(s) && !Finished(s, Writer)
    requires s.wl.WaitingWork? ==> s.conn.closech || s.sending.writech > 0
    ensures CanStep(s, Writer) || AtNetwork(s, Writer)
  {
    match s.wl
    case WaitingWork => assert WlEnabled(s, if s.conn.closech then WlRecvClosech else WlRecv);
    case Writing(_) =>
    case Counting(_, _) => assert WlEnabled(s, WlCount);
    case SendingPcErr(_) => assert WlEnabled(s, WlSendPcErr);
    case SendingRtErr(_) => assert WlEnabled(s, WlSendRtErr);
    case AfterWrite(_) => assert WlEnabled(s, WlAfter);
    case WriterLeaving => assert WlEnabled(s, WlLeave);
  }

  lemma CallMoves(s: State, i: nat)
    requires Inv(s) && i < |s.body.calls| && !Finished(s, BodyCall(i)) && !s.body.calls[i].EofcWait?
    requires HoldsMu(s.body.calls[i]) || s.body.mu == None
    ensures CanStep(s, BodyCall(i)) || AtNetwork(s, BodyCall(i))
  {
    match s.body.calls[i]
    case ReadStart => assert BodyEnabled(s.body, s.eofcClosed, i, BdReadStart);
    case BodyRead =>
    case ReadFailed(_) => assert BodyEnabled(s.body, s.eofcClosed, i, BdReadFailed);
    case FnSend(_) => assert BodyEnabled(s.body, s.eofcClosed, i, BdFnSend);
    case CloseStart => assert BodyEnabled(s.body, s.eofcClosed, i, BdCloseStart);
    case EarlySend => assert BodyEnabled(s.body, s.eofcClosed, i, BdEarlySend);
    case BodyClose =>
  }

  /** A reader waiting on eofc finds readLoop on its way to the send or to the close of eofc. */
  lemma EofcIsServed(s: State)
    requires Inv(s) && Holder(s.body).EofcWait? && !s.eofcClosed
    ensures !Finished(s, Reader) && !Offering(s)
    ensures CanStep(s, Reader) || AtNetwork(s, Reader)
  {
    if s.rl.AwaitingBody? {
      assert s.body.waitBody != [];
      assert FinEnabled(s, FinRecvBody);
    } else {
      ReaderMoves(s);
    }
  }

  lemma CallerIsServed(s: State) returns (path: seq<Proc>)
    requires Inv(s) && Blocked(s, Caller)
    ensures path != [] && path[0] == Caller && Served(s, path)
  {
    if s.rt.AwaitingWriter? {
      assert OutEnabled(s, OutWriterDone) <==> s.sending.writeLoopDone;
      WriterMoves(s);
      path := [Caller, Writer];
    } else {
      if !s.rt.Selecting? { CallerMoves(s); assert false; }
      assert RtEnabled(s, RtRecvClosech) <==> s.conn.closech;
      ReaderMoves(s);
      path := [Caller, Reader];
    }
  }

  lemma ReaderIsServed(s: State) returns (path: seq<Proc>)
    requires Inv(s) && Blocked(s, Reader)
    ensures path != [] && path[0] == Reader && Served(s, path)
    ensures !s.conn.closech ==> path == [Reader, Caller]
  {
    if !Offering(s) && (s.rl.ReceivingReq? ==> SentBoth(s.rt)) { ReaderMoves(s); assert false; }
    assert WaitsFor(s, Reader, Caller);
    path := [Reader, Caller];
    if !s.rt.AwaitingWriter? {
      CallerMoves(s);
    } else if s.sending.writeLoopDone {
      assert OutEnabled(s, OutWriterDone);
    } else {
      WriterMoves(s);
      path := [Reader, Caller, Writer];
    }
  }

  lemma WriterIsServed(s: State) returns (path: seq<Proc>)
    requires Inv(s) && Blocked(s, Writer)
    ensures path != [] && path[0] == Writer && Served(s, path)
  {
    if !(s.wl.WaitingWork? && !s.conn.closech && s.sending.writech == 0) { WriterMoves(s); assert false; }
    if !SentWrite(s.rt) {
      CallerMoves(s);
      path := [Writer, Caller];
    } else if Blocked(s, Reader) {
      var rest := ReaderIsServed(s);
      path := [Writer] + rest;
      assert path == [Writer, Reader, Caller];
    } else {
      path := [Writer, Reader];
    }
  }

  lemma CallIsServed(s: State, i: nat) returns (path: seq<Proc>)
    requires Inv(s) && i < |s.body.calls| && Blocked(s, BodyCall(i))
    ensures path != [] && path[0] == BodyCall(i) && Served(s, path)
  {
    var b := s.body;
    if HoldsMu(b.calls[i]) {
      assert BodyEnabled(b, s.eofcClosed, i, BdEofcClosed) <==> b.calls[i].EofcWait? && s.eofcClosed;
      if !b.calls[i].EofcWait? { CallMoves(s, i); assert false; }
      EofcIsServed(s);
      path := [BodyCall(i), Reader];
    } else {
      if b.mu == None { CallMoves(s, i); assert false; }
      var j := b.mu.value;
      assert WaitsFor(s, BodyCall(i), BodyCall(j));
      path := [BodyCall(i), BodyCall(j)];
      if !b.calls[j].EofcWait? {
        CallMoves(s, j);
      } else if s.eofcClosed {
        assert BodyEnabled(b, true, j, BdEofcClosed);
      } else {
        EofcIsServed(s);
        path := [BodyCall(i), BodyCall(j), Reader];
      }
    }
  }

  /**
   * Deadlock freedom. In every reachable state a blocked goroutine waits, through a chain of at most
   * two waits, for a goroutine that can take a step now or that only the network, a timer or the
   * caller holds.
   */
  lemma BlockedIsServed(s: State, p: Proc) returns (path: seq<Proc>)
    requires Reachable(s) && Exists(s, p) && Blocked(s, p)
    ensures path != [] && path[0] == p && Served(s, path)
  {
    ReachableInv(s);
    match p
    case Caller => path := CallerIsServed(s);
    case Reader => path := ReaderIsServed(s);
    case Writer => path := WriterIsServed(s);
    case BodyCall(i) => path := CallIsServed(s, i);
  }

  // ----- every run ends -----

  function CallRank(c: Call): nat {
    match c
    case ReadStart => 8
    case BodyRead => 7
    case ReadFailed(_) => 6
    case FnSend(_) => 5
    case EofcWait => 3
    case CloseStart => 8
    case EarlySend => 5
    case BodyClose => 7
    case CallDone => 0
  }

  function CallsRank(calls: seq<Call>): nat {
    if calls == [] then 0 else CallRank(calls[0]) + CallsRank(calls[1..])
  }

  lemma {:induction false} CallsRankUpdate(calls: seq<Call>, i: nat, c: Call)
    requires i < |calls|
    ensures CallsRank(calls[i := c]) == CallsRank(calls) - CallRank(calls[i]) + CallRank(c)
  {
    if i == 0 {
      assert calls[0 := c][1..] == calls[1..];
    } else {
      CallsRankUpdate(calls[1..], i - 1, c);
      assert calls[i := c][1..] == calls[1..][i - 1 := c];
    }
  }

  lemma {:induction false} CallsRankAppend(calls: seq<Call>, c: Call)
    ensures CallsRank(calls + [c]) == CallsRank(calls) + CallRank(c)
  {
    if calls == [] {
      assert [] + [c] == [c];
      assert CallsRank([c][1..]) == 0;
    } else {
      CallsRankAppend(calls[1..], c);
      assert (calls + [c])[1..] == calls[1..] + [c];
    }
  }

  /** How often roundTrip can still go around its select because of Cancel and Done. */
  function WatchRank(w: Watch): nat { 15 + (if w.onCancel then 3 else 0) + (if w.onContext then 3 else 0) }

  function CallerRank(rt: RoundTrip): nat {
    match rt
    case Uncalled => 43
    case Entered => 42
    case Expecting => 41
    case SendingWrite => 40
    case SendingReq => 26
    case Selecting(w) => WatchRank(w)
    case TakingCancel(_, w) => WatchRank(w) + 2
    case CallingCancel(_, w) => WatchRank(w) + 1
    case WriteError(_) => 10
    case TimedOut => 9
    case MapCanceled(_) => 8
    case MapRequestError(_) => 7
    case MapBroken(_) => 6
    case AwaitingWriter(_) => 5
    case Leaving(_) => 4
    case ClosingGone(_) => 3
    case Returned(_) => 0
    case Abandoned => 0
    case Refused => 0
  }

  function ReaderRank(rl: ReadLoop): nat {
    match rl
    case Peeking => 20
    case Checking(_) => 19
    case ReceivingReq(_) => 18
    case Reading => 17
    case SendingError(_) => 16
    case GotResponse(_) => 16
    case NoBodyClear => 15
    case NoBodyPut => 14
    case SendingResponse(_) => 13
    case AwaitingBody => 12
    case BodyClear(_) => 11
    case BodyPut(_) => 10
    case SendingEofc => 9
    case TakingCancelRL(_) => 11
    case CallingCancelRL(_) => 10
    case LoopEnd => 8
    case Exiting => 7
    case ClosingConn => 6
    case Ended => 0
  }

  function WriterRank(wl: WriteLoop): nat {
    match wl
    case WaitingWork => 2
    case Writing(_) => 8
    case Counting(_, _) => 9
    case SendingPcErr(_) => 7
    case SendingRtErr(_) => 5
    case AfterWrite(_) => 3
    case WriterLeaving => 1
    case WriterDone => 0
  }

  function SendingRank(d: Sending): nat { 7 * d.writech + |d.pcWriteErr| + |d.rtWriteErr| }

  function RequestRank(r: Request): nat {
    r.reqch + (if r.canceler == NoCanceler then 0 else 2) + (if r.reqCancel then 0 else 1)
    + (if r.contextDone then 0 else 1) + |r.pending|
  }

  /** A bound on the steps that are left. */
  function Rank(s: State): nat {
    CallerRank(s.rt) + ReaderRank(s.rl) + WriterRank(s.wl) + SendingRank(s.sending) + RequestRank(s.req)
    + |s.body.waitBody| + CallsRank(s.body.calls)
  }

  /** Steps of which the connection and the caller can make as many as they like. */
  function NewWork(a: Action): nat {
    match a
    case Wl(w) => if w.WlConnWrite? then 2 else 0
    case Env(e) => if e.StartRead? || e.StartClose? then 9 else 0
    case _ => 0
  }

  lemma EnvRank(s: State, e: EnvAction)
    requires EnvEnabled(s, e)
    ensures Rank(EnvApply(s, e)) + 1 <= Rank(s) + NewWork(Env(e))
  {
    CallsRankAppend(s.body.calls, ReadStart);
    CallsRankAppend(s.body.calls, CloseStart);
  }

  lemma RtRank(s: State, r: RtAction)
    requires RtEnabled(s, r)
    ensures Rank(RtApply(s, r)) + 1 <= Rank(s)
  {
  }

  lemma OutRank(s: State, o: OutAction)
    requires OutEnabled(s, o)
    ensures Rank(OutApply(s, o)) + 1 <= Rank(s)
  {
  }

  lemma RlMoves(s: State, r: RlAction)
    requires RlEnabled(s, r)
    ensures var t := RlApply(s, r);
            CallerRank(t.rt) + ReaderRank(t.rl) + t.req.reqch + 1 <= CallerRank(s.rt) + ReaderRank(s.rl) + s.req.reqch
  {
    var t := RlApply(s, r);
    assert ReaderRank(t.rl) + 1 <= ReaderRank(s.rl) || r.RlDeliverError?;
    assert CallerRank(t.rt) <= CallerRank(s.rt);
  }

  lemma RlKeeps(s: State, r: RlAction)
    requires RlEnabled(s, r)
    ensures var t := RlApply(s, r);
            t.sending == s.sending && t.body == s.body && t.wl == s.wl && t.req == s.req.(reqch := t.req.reqch)
  {
  }

  lemma RlRank(s: State, r: RlAction)
    requires RlEnabled(s, r)
    ensures Rank(RlApply(s, r)) + 1 <= Rank(s)
  {
    RlMoves(s, r);
    RlKeeps(s, r);
  }

  /** readLoop never goes around again: no connection is kept, so `alive` is false at the end of its body. */
  lemma FinRank(s: State, f: FinAction)
    requires ClosedWhere(s) && FinEnabled(s, f)
    ensures Rank(FinApply(s, f)) + 1 <= Rank(s)
  {
    var t := FinApply(s, f);
    assert t.rt == s.rt && t.wl == s.wl && ReaderRank(t.rl) + 1 <= ReaderRank(s.rl);
    assert SendingRank(t.sending) <= SendingRank(s.sending) && RequestRank(t.req) <= RequestRank(s.req);
    if f.FinSendEofc? {
      CallsRankUpdate(s.body.calls, f.i, CallDone);
    }
  }

  lemma WlRank(s: State, w: WlAction)
    requires WlEnabled(s, w)
    ensures Rank(WlApply(s, w)) + 1 <= Rank(s) + NewWork(Wl(w))
  {
    var t := WlApply(s, w);
    assert t.rt == s.rt && t.rl == s.rl && t.body == s.body && t.req == s.req;
    assert WriterRank(t.wl) + SendingRank(t.sending) + 1 <= WriterRank(s.wl) + SendingRank(s.sending) + NewWork(Wl(w));
  }

  lemma BodyCallRank(b: Body, eofcClosed: bool, i: nat, c: BodyAction, next: Body)
    requires BodyEnabled(b, eofcClosed, i, c) && next == BodyApply(b, i, c)
    ensures |next.calls| == |b.calls| && next.calls == b.calls[i := next.calls[i]]
    ensures CallRank(next.calls[i]) + |next.waitBody| + 1 <= CallRank(b.calls[i]) + |b.waitBody|
  {
  }

  lemma BdRank(s: State, i: nat, c: BodyAction)
    requires BodyEnabled(s.body, s.eofcClosed, i, c)
    ensures Rank(Apply(s, Bd(i, c))) + 1 <= Rank(s)
  {
    var next := BodyApply(s.body, i, c);
    BodyCallRank(s.body, s.eofcClosed, i, c, next);
    CallsRankUpdate(s.body.calls, i, next.calls[i]);
  }

  lemma RankDrops(s: State, a: Action)
    requires Inv(s) && Enabled(s, a)
    ensures Rank(Apply(s, a)) + 1 <= Rank(s) + NewWork(a)
  {
    var b := s.body;
    match a
    case Env(e) => EnvRank(s, e);
    case Rt(r) => RtRank(s, r);
    case Out(o) => OutRank(s, o);
    case Rl(r) => RlRank(s, r);
    case Fin(f) => FinRank(s, f);
    case Wl(w) => WlRank(s, w);
    case Bd(i, c) => BdRank(s, i, c);
  }

  function TotalNewWork(actions: seq<Action>): nat {
    if actions == [] then 0 else NewWork(actions[0]) + TotalNewWork(actions[1..])
  }

  lemma {:induction false} RunIsBounded(s: State, actions: seq<Action>, t: State)
    requires Inv(s) && Run(s, actions, t)
    ensures |actions| + Rank(t) <= Rank(s) + TotalNewWork(actions)
    decreases |actions|
  {
    if actions != [] {
      Step(s, actions[0]);
      RankDrops(s, actions[0]);
      RunIsBounded(Apply(s, actions[0]), actions[1..], t);
    }
  }

  /** From dial to end a connection takes at most 69 steps, and 2 for each conn.Write and 9 for each body call. */
  lemma EveryRunEnds(s: State, actions: seq<Action>, t: State)
    requires Init(s, 2) && Run(s, actions, t)
    ensures |actions| <= 69 + TotalNewWork(actions)
  {
    InitInv(s);
    RunIsBounded(s, actions, t);
  }

  /**
   * No goroutine leaks: once the connection is closed, a state in which nobody can step is one in
   * which every goroutine has finished, is inside a call on the closed connection, or waits for one that is.
   */
  lemma ClosedConnectionDrains(s: State, p: Proc) returns (path: seq<Proc>)
    requires Reachable(s) && s.conn.closech && !s.rt.Uncalled?
    requires forall q :: Exists(s, q) ==> !CanStep(s, q)
    requires Exists(s, p) && !Finished(s, p)
    ensures path != [] && path[0] == p && WaitPath(s, path)
    ensures Exists(s, path[|path| - 1]) && AtNetwork(s, path[|path| - 1])
  {
    ReachableInv(s);
    assert FinEnabled(s, FinPickClosech) <==> s.rl.AwaitingBody?;
    assert !CanStep(s, Reader);
    path := [p];
    if !AtNetwork(s, p) {
      path := BlockedIsServed(s, p);
    }
  }

  // ----- why waitForBodyRead has two slots -----

  /** A run of body calls alone, readLoop being gone: (call, action) pairs. */
  predicate BodyRun(b: Body, steps: seq<(nat, BodyAction)>, t: Body)
    decreases |steps|
  {
    if steps == [] then t == b
    else BodyEnabled(b, true, steps[0].0, steps[0].1)
         && BodyRun(BodyApply(b, steps[0].0, steps[0].1), steps[1..], t)
  }

  /**
   * With one slot, a Close during the unlocked Read fills the channel that readLoop no longer
   * serves, and the failing Read then hangs inside fn with es.mu held: nothing is enabled any more.
   */
  lemma OneSlotHangs(b: Body, t: Body)
    requires b == Body(1, [], false, None, true, None, [ReadStart, CloseStart], 0, 0, 0)
    requires t == Body(1, [false], true, Some(Net(0)), true, Some(0), [FnSend(Some(Net(0))), CallDone], 1, 1, 0)
    ensures exists steps :: BodyRun(b, steps, t)
    ensures forall i, a :: !BodyEnabled(t, true, i, a)
  {
    var b1 := BodyApply(b, 0, BdReadStart);
    var b2 := BodyApply(b1, 1, BdCloseStart);
    var b3 := BodyApply(b2, 1, BdEarlySend);
    var b4 := BodyApply(b3, 0, BdReadDone(Some(Net(0)), false));
    assert BodyApply(b4, 0, BdReadFailed) == t;
    var s4 := [(0, BdReadFailed)];
    var s3 := [(0, BdReadDone(Some(Net(0)), false))] + s4;
    var s2 := [(1, BdEarlySend)] + s3;
    var s1 := [(1, BdCloseStart)] + s2;
    var s0 := [(0, BdReadStart)] + s1;
    assert s3[1..] == s4 && s2[1..] == s3 && s1[1..] == s2 && s0[1..] == s1;
    assert BodyRun(t, s4[1..], t);
    assert BodyRun(b4, s4, t);
    assert BodyRun(b3, s3, t);
    assert BodyRun(b2, s2, t);
    assert BodyRun(b1, s1, t);
    assert BodyRun(b, s0, t);
  }
}
