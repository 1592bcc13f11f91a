/** The inductive invariant of the connection protocol and what it says about finished requests. */
module PersistConnSafety {
  import opened Basics
  import opened PersistConn

  // ----- where the goroutines are -----

  /** The request has been queued for both loops. */
  predicate SentBoth(rt: RoundTrip) {
    !rt.Uncalled? && !rt.Abandoned? && !rt.Entered? && !rt.Refused? && !rt.Expecting? && !rt.SendingWrite?
    && !rt.SendingReq?
  }

  /** The request has been queued for writeLoop. */
  predicate SentWrite(rt: RoundTrip) { rt.SendingReq? || SentBoth(rt) }

  /** roundTrip has counted itself in numExpectedResponses. */
  predicate Counted(rt: RoundTrip) { rt.SendingWrite? || SentWrite(rt) }

  predicate BeforeReq(rl: ReadLoop) { rl.Peeking? || rl.Checking? || rl.ReceivingReq? }

  predicate Stopping(rl: ReadLoop) { rl.Exiting? || rl.ClosingConn? || rl.Ended? }

  /** readLoop waits for the body or acts on what the wait brought. */
  predicate AfterBodyDelivered(rl: ReadLoop) {
    rl.AwaitingBody? || rl.BodyClear? || rl.BodyPut? || rl.SendingEofc? || rl.TakingCancelRL? || rl.CallingCancelRL?
  }

  /** readLoop has read a response and lowered numExpectedResponses. */
  predicate AfterResponse(rl: ReadLoop) {
    rl.NoBodyClear? || rl.NoBodyPut? || rl.SendingResponse? || AfterBodyDelivered(rl) || rl.LoopEnd?
  }

  predicate GotBody(rt: RoundTrip) {
    (rt.ClosingGone? || rt.Returned?) && rt.out == Response(true)
  }

  predicate HoldsMu(c: Call) { c.FnSend? || c.EofcWait? || c.EarlySend? || c.BodyClose? }

  /** Errors that are not verdicts of writeLoop or of mapRoundTripError about what was written. */
  predicate Plain(e: Err) { !e.NothingWritten? && !e.ConnBroken? }

  predicate CancelErr(e: Err) { e == RequestCanceled || e.ContextError? }

  // ----- the invariant, component by component -----

  /** closed, closech and broken change together, and no panic has been hit. */
  predicate CloseOnce(c: Conn) {
    && (c.closed.Some? <==> c.closech) && (c.closech <==> c.broken)
    && (c.canceledErr.Some? ==> c.closech && CancelErr(c.canceledErr.value))
    && !c.panicked
    && c.numExpected >= 0
  }

  /** Where a goroutine is tells whether the connection is closed. */
  predicate ClosedWhere(s: State) {
    && s.closeErr.Some?
    && (s.rl.SendingError? ==> s.rl.err.Some? && Plain(s.rl.err.value))
    && (s.rt.MapCanceled? ==> s.rt.first.Some?)
    && (s.rl.Ended? || s.wl.WriterLeaving? || s.wl.WriterDone? ==> s.conn.closech)
    && (s.rt.AwaitingWriter? || s.rt.Abandoned? || s.rt.Refused? ==> s.conn.closech)
    && (s.rl.LoopEnd? || s.rl.SendingEofc? || s.rl.TakingCancelRL? || s.rl.CallingCancelRL? ==> !s.alive)
    && (s.rl.SendingResponse? && !s.rl.hasBody ==> !s.alive)
  }

  /** The request goes once to each loop, and a response is expected at most once. */
  predicate OneRequest(s: State) {
    && (SentWrite(s.rt) <==> s.sending.wrote)
    && s.req.reqch == (if SentBoth(s.rt) && (BeforeReq(s.rl) || (Stopping(s.rl) && s.req.reqch > 0)) then 1 else 0)
    && (!BeforeReq(s.rl) && !Stopping(s.rl) ==> SentBoth(s.rt))
    && (s.rl.ReceivingReq? ==> Counted(s.rt))
    && (!Stopping(s.rl) ==>
          s.conn.numExpected == (if Counted(s.rt) then 1 else 0) - (if AfterResponse(s.rl) then 1 else 0))
    && (s.req.gone <==> s.rt.Returned?)
    && (s.eofcClosed <==> s.rl.ClosingConn? || s.rl.Ended?)
  }

  /** writeLoop writes one request and is the only one to touch nwrite. */
  predicate OneWriter(d: Sending, wl: WriteLoop) {
    && d.writech == (if d.wrote && !d.took then 1 else 0)
    && (d.took ==> d.wrote)
    && d.wire == d.nwrite + (if wl.Counting? then wl.n else 0)
    && d.startBytes == 0
    && (!d.took ==>
          && d.nwrite == d.startBytes && d.pcWriteErr == [] && d.rtWriteErr == []
          && (wl.WaitingWork? || wl.WriterLeaving? || wl.WriterDone?))
    && (wl.Writing? || wl.Counting? ==> wl.start == d.startBytes)
    && (wl.Writing? || wl.Counting? || wl.SendingPcErr? ==> d.pcWriteErr == [])
    && (wl.Writing? || wl.Counting? || wl.SendingPcErr? || wl.SendingRtErr? ==> d.rtWriteErr == [])
    && |d.pcWriteErr| <= 1 && |d.rtWriteErr| <= 1
    && (d.writeLoopDone <==> wl.WriterDone?)
    && (d.reqErr.Some? ==> Plain(d.reqErr.value))
  }

  /** es.mu is held by exactly the call that is inside fn, earlyCloseFn or body.Close. */
  predicate MuHeld(b: Body) {
    && (forall i {:trigger b.calls[i]} :: 0 <= i < |b.calls| ==> (HoldsMu(b.calls[i]) <==> b.mu == Some(i)))
    && (b.mu.Some? ==> b.mu.value < |b.calls|)
  }

  /** The call that holds es.mu; CallDone when it is free. */
  function Holder(b: Body): Call {
    if b.mu.Some? && b.mu.value < |b.calls| then b.calls[b.mu.value] else CallDone
  }

  /** fn and earlyCloseFn ran at most once each, and every run sent at most one value. */
  predicate BodyCounters(b: Body) {
    var h := Holder(b);
    && b.cap == 2
    && b.fnRuns == (if b.fnSet && !h.FnSend? && !h.EofcWait? then 0 else 1)
    && (h.FnSend? || h.EofcWait? ==> b.fnSet)
    && b.earlyRuns <= (if b.esClosed then 1 else 0)
    && |b.waitBody| + b.received + (if h.FnSend? || h.EarlySend? then 1 else 0) == b.fnRuns + b.earlyRuns
    && (b.rerr == Some(Eof) ==> !b.fnSet || h.FnSend? || h.EofcWait?)
    && (h.EarlySend? ==> b.rerr != Some(Eof))
    && (h.BodyClose? ==> b.rerr == Some(Eof))
  }

  /** readLoop has received `true` and not yet sent on eofc. */
  predicate OwesEofc(rl: ReadLoop) { rl == BodyClear(true) || rl == BodyPut(true) || rl.SendingEofc? }

  function Trues(q: seq<bool>): nat {
    if q == [] then 0 else (if q[0] then 1 else 0) + Trues(q[1..])
  }

  lemma {:induction false} TruesAppend(q: seq<bool>, b: bool)
    ensures Trues(q + [b]) == Trues(q) + (if b then 1 else 0)
  {
    if q == [] {
      assert q + [b] == [b];
    } else {
      TruesAppend(q[1..], b);
      assert (q + [b])[1..] == q[1..] + [b];
    }
  }

  /** Each `true` that is queued or held by readLoop has one reader waiting on eofc. */
  predicate Handshake(b: Body, rl: ReadLoop, eofcClosed: bool) {
    !eofcClosed ==> Trues(b.waitBody) + (if OwesEofc(rl) then 1 else 0) == (if Holder(b).EofcWait? then 1 else 0)
  }

  /** The body exists for its readers exactly when readLoop has handed it over. */
  predicate BodyDelivered(s: State) {
    && (s.body.calls != [] ==> GotBody(s.rt))
    && (AfterBodyDelivered(s.rl) ==> GotBody(s.rt))
    && (GotBody(s.rt) ==> AfterBodyDelivered(s.rl) || s.rl.LoopEnd? || Stopping(s.rl))
    && (s.rl.AwaitingBody? ==> s.body.received == 0)
    && (!GotBody(s.rt) ==> s.body.received == 0)
    && s.body.received <= 1
    && (s.rl.BodyClear? || s.rl.BodyPut? ==> s.body.received == 1)
  }

  predicate GoodOutcome(s: State, out: Outcome) {
    && !out.NilResponseNilError?
    && (out.Failure? && out.err.NothingWritten? ==> s.wl.WriterDone? && s.sending.wire == s.sending.startBytes)
    && (out.Failure? && out.err.ConnBroken? ==> s.wl.WriterDone? && s.sending.wire > s.sending.startBytes)
  }

  /** Errors on their way to the caller, and what they say about the bytes written. */
  predicate Results(s: State) {
    && (forall i :: 0 <= i < |s.req.pending| ==> CancelErr(s.req.pending[i]))
    && (s.rt.TakingCancel? || s.rt.CallingCancel? ==> CancelErr(s.rt.why))
    && (s.rl.TakingCancelRL? || s.rl.CallingCancelRL? ==> CancelErr(s.rl.why))
    && (s.rt.MapCanceled? && s.rt.first.Some? && !Plain(s.rt.first.value) ==> s.conn.closech)
    && (s.rt.MapRequestError? || s.rt.MapBroken? ==> Plain(s.rt.seen) || s.conn.closech)
    && (s.rt.Leaving? ==> s.rt.out.Failure?)
    && (s.rt.Leaving? || s.rt.ClosingGone? || s.rt.Returned? ==> GoodOutcome(s, s.rt.out))
  }

  predicate Inv(s: State) {
    && CloseOnce(s.conn) && ClosedWhere(s) && OneRequest(s) && OneWriter(s.sending, s.wl)
    && MuHeld(s.body) && BodyCounters(s.body) && Handshake(s.body, s.rl, s.eofcClosed)
    && BodyDelivered(s) && Results(s)
  }

  lemma InitInv(s: State)
    requires Init(s, 2)
    ensures Inv(s)
  {
  }

  lemma RtClose(s: State, a: RtAction, t: State)
    requires CloseOnce(s.conn) && ClosedWhere(s) && Results(s)
    requires RtEnabled(s, a) && t == RtApply(s, a)
    ensures CloseOnce(t.conn) && ClosedWhere(t)
    ensures s.conn.closed.Some? ==> t.conn.closed == s.conn.closed
  {
  }

  lemma RtRequest(s: State, a: RtAction, t: State)
    requires OneRequest(s)
    requires RtEnabled(s, a) && t == RtApply(s, a)
    ensures OneRequest(t)
  {
  }

  lemma RtWriter(s: State, a: RtAction, t: State)
    requires OneRequest(s) && OneWriter(s.sending, s.wl)
    requires RtEnabled(s, a) && t == RtApply(s, a)
    ensures OneWriter(t.sending, t.wl)
    ensures s.wl.WriterDone? ==> t.wl.WriterDone? && t.sending.wire == s.sending.wire
  {
  }

  lemma RtBody(s: State, a: RtAction, t: State)
    requires MuHeld(s.body) && BodyCounters(s.body) && BodyDelivered(s) && Handshake(s.body, s.rl, s.eofcClosed)
    requires RtEnabled(s, a) && t == RtApply(s, a)
    ensures MuHeld(t.body) && BodyCounters(t.body) && Handshake(t.body, t.rl, t.eofcClosed)
  {
  }

  lemma RtDelivered(s: State, a: RtAction, t: State)
    requires BodyDelivered(s)
    requires RtEnabled(s, a) && t == RtApply(s, a)
    ensures BodyDelivered(t)
  {
  }

  lemma RtResults(s: State, a: RtAction, t: State)
    requires CloseOnce(s.conn) && Results(s) && OneRequest(s)
    requires RtEnabled(s, a) && t == RtApply(s, a)
    ensures Results(t)
  {
  }

  lemma OutClose(s: State, a: OutAction, t: State)
    requires CloseOnce(s.conn) && ClosedWhere(s)
    requires OutEnabled(s, a) && t == OutApply(s, a)
    ensures CloseOnce(t.conn) && ClosedWhere(t)
    ensures s.conn.closed.Some? ==> t.conn.closed == s.conn.closed
  {
  }

  lemma OutRequest(s: State, a: OutAction, t: State)
    requires OneRequest(s)
    requires OutEnabled(s, a) && t == OutApply(s, a)
    ensures OneRequest(t)
  {
  }

  lemma OutWriter(s: State, a: OutAction, t: State)
    requires OneRequest(s) && OneWriter(s.sending, s.wl)
    requires OutEnabled(s, a) && t == OutApply(s, a)
    ensures OneWriter(t.sending, t.wl)
    ensures s.wl.WriterDone? ==> t.wl.WriterDone? && t.sending.wire == s.sending.wire
  {
  }

  lemma OutBody(s: State, a: OutAction, t: State)
    requires MuHeld(s.body) && BodyCounters(s.body) && BodyDelivered(s) && Handshake(s.body, s.rl, s.eofcClosed)
    requires OutEnabled(s, a) && t == OutApply(s, a)
    ensures MuHeld(t.body) && BodyCounters(t.body) && Handshake(t.body, t.rl, t.eofcClosed)
  {
  }

  lemma OutDelivered(s: State, a: OutAction, t: State)
    requires BodyDelivered(s) && Results(s)
    requires OutEnabled(s, a) && t == OutApply(s, a)
    ensures BodyDelivered(t)
  {
  }

  lemma OutResults(s: State, a: OutAction, t: State)
    requires CloseOnce(s.conn) && ClosedWhere(s) && Results(s) && OneWriter(s.sending, s.wl)
    requires OutEnabled(s, a) && t == OutApply(s, a)
    ensures Results(t)
  {
  }

  lemma RlClose(s: State, a: RlAction, t: State)
    requires CloseOnce(s.conn) && ClosedWhere(s) && OneRequest(s)
    requires RlEnabled(s, a) && t == RlApply(s, a)
    ensures CloseOnce(t.conn) && ClosedWhere(t)
    ensures s.conn.closed.Some? ==> t.conn.closed == s.conn.closed
  {
  }

  lemma RlRequest(s: State, a: RlAction, t: State)
    requires OneRequest(s)
    requires RlEnabled(s, a) && t == RlApply(s, a)
    ensures OneRequest(t)
  {
  }

  lemma RlWriter(s: State, a: RlAction, t: State)
    requires OneRequest(s) && OneWriter(s.sending, s.wl)
    requires RlEnabled(s, a) && t == RlApply(s, a)
    ensures OneWriter(t.sending, t.wl)
    ensures s.wl.WriterDone? ==> t.wl.WriterDone? && t.sending.wire == s.sending.wire
  {
  }

  lemma RlBody(s: State, a: RlAction, t: State)
    requires MuHeld(s.body) && BodyCounters(s.body) && BodyDelivered(s) && Handshake(s.body, s.rl, s.eofcClosed)
    requires RlEnabled(s, a) && t == RlApply(s, a)
    ensures MuHeld(t.body) && BodyCounters(t.body) && Handshake(t.body, t.rl, t.eofcClosed)
  {
  }

  lemma RlDelivered(s: State, a: RlAction, t: State)
    requires BodyDelivered(s) && ClosedWhere(s)
    requires RlEnabled(s, a) && t == RlApply(s, a)
    ensures BodyDelivered(t)
  {
  }

  lemma RlResults(s: State, a: RlAction, t: State)
    requires CloseOnce(s.conn) && ClosedWhere(s) && Results(s)
    requires RlEnabled(s, a) && t == RlApply(s, a)
    ensures Results(t)
  {
  }

  lemma FinClose(s: State, a: FinAction, t: State)
    requires CloseOnce(s.conn) && ClosedWhere(s) && Results(s)
    requires FinEnabled(s, a) && t == FinApply(s, a)
    ensures CloseOnce(t.conn) && ClosedWhere(t)
    ensures s.conn.closed.Some? ==> t.conn.closed == s.conn.closed
  {
  }

  lemma FinRequest(s: State, a: FinAction, t: State)
    requires OneRequest(s) && ClosedWhere(s)
    requires FinEnabled(s, a) && t == FinApply(s, a)
    ensures OneRequest(t)
  {
  }

  lemma FinWriter(s: State, a: FinAction, t: State)
    requires OneRequest(s) && OneWriter(s.sending, s.wl)
    requires FinEnabled(s, a) && t == FinApply(s, a)
    ensures OneWriter(t.sending, t.wl)
    ensures s.wl.WriterDone? ==> t.wl.WriterDone? && t.sending.wire == s.sending.wire
  {
  }

  lemma FinBody(s: State, a: FinAction, t: State)
    requires MuHeld(s.body) && BodyCounters(s.body) && BodyDelivered(s) && Handshake(s.body, s.rl, s.eofcClosed)
    requires FinEnabled(s, a) && t == FinApply(s, a)
    ensures MuHeld(t.body) && BodyCounters(t.body) && Handshake(t.body, t.rl, t.eofcClosed)
  {
  }

  lemma FinDelivered(s: State, a: FinAction, t: State)
    requires BodyDelivered(s) && ClosedWhere(s)
    requires FinEnabled(s, a) && t == FinApply(s, a)
    ensures BodyDelivered(t)
  {
  }

  lemma FinResults(s: State, a: FinAction, t: State)
    requires CloseOnce(s.conn) && ClosedWhere(s) && Results(s)
    requires FinEnabled(s, a) && t == FinApply(s, a)
    ensures Results(t)
  {
  }

  lemma WlClose(s: State, a: WlAction, t: State)
    requires CloseOnce(s.conn) && ClosedWhere(s)
    requires WlEnabled(s, a) && t == WlApply(s, a)
    ensures CloseOnce(t.conn) && ClosedWhere(t)
    ensures s.conn.closed.Some? ==> t.conn.closed == s.conn.closed
  {
  }

  lemma WlRequest(s: State, a: WlAction, t: State)
    requires OneRequest(s)
    requires WlEnabled(s, a) && t == WlApply(s, a)
    ensures OneRequest(t)
  {
  }

  lemma WlWriter(s: State, a: WlAction, t: State)
    requires OneRequest(s) && OneWriter(s.sending, s.wl)
    requires WlEnabled(s, a) && t == WlApply(s, a)
    ensures OneWriter(t.sending, t.wl)
    ensures s.wl.WriterDone? ==> t.wl.WriterDone? && t.sending.wire == s.sending.wire
  {
  }

  lemma WlBody(s: State, a: WlAction, t: State)
    requires MuHeld(s.body) && BodyCounters(s.body) && BodyDelivered(s) && Handshake(s.body, s.rl, s.eofcClosed)
    requires WlEnabled(s, a) && t == WlApply(s, a)
    ensures MuHeld(t.body) && BodyCounters(t.body) && Handshake(t.body, t.rl, t.eofcClosed)
  {
  }

  lemma WlDelivered(s: State, a: WlAction, t: State)
    requires BodyDelivered(s)
    requires WlEnabled(s, a) && t == WlApply(s, a)
    ensures BodyDelivered(t)
  {
  }

  lemma WlResults(s: State, a: WlAction, t: State)
    requires CloseOnce(s.conn) && ClosedWhere(s) && Results(s) && OneWriter(s.sending, s.wl)
    requires WlEnabled(s, a) && t == WlApply(s, a)
    ensures Results(t)
  {
  }

  lemma EnvClose(s: State, a: EnvAction, t: State)
    requires CloseOnce(s.conn) && ClosedWhere(s) && Results(s)
    requires EnvEnabled(s, a) && t == EnvApply(s, a)
    ensures CloseOnce(t.conn) && ClosedWhere(t)
    ensures s.conn.closed.Some? ==> t.conn.closed == s.conn.closed
  {
  }

  lemma EnvRequest(s: State, a: EnvAction, t: State)
    requires OneRequest(s)
    requires EnvEnabled(s, a) && t == EnvApply(s, a)
    ensures OneRequest(t)
  {
  }

  lemma EnvWriter(s: State, a: EnvAction, t: State)
    requires OneRequest(s) && OneWriter(s.sending, s.wl)
    requires EnvEnabled(s, a) && t == EnvApply(s, a)
    ensures OneWriter(t.sending, t.wl)
    ensures s.wl.WriterDone? ==> t.wl.WriterDone? && t.sending.wire == s.sending.wire
  {
  }

  lemma EnvBody(s: State, a: EnvAction, t: State)
    requires MuHeld(s.body) && BodyCounters(s.body) && BodyDelivered(s) && Handshake(s.body, s.rl, s.eofcClosed)
    requires EnvEnabled(s, a) && t == EnvApply(s, a)
    ensures MuHeld(t.body) && BodyCounters(t.body) && Handshake(t.body, t.rl, t.eofcClosed)
  {
  }

  lemma EnvDelivered(s: State, a: EnvAction, t: State)
    requires BodyDelivered(s)
    requires EnvEnabled(s, a) && t == EnvApply(s, a)
    ensures BodyDelivered(t)
  {
  }

  lemma EnvResults(s: State, a: EnvAction, t: State)
    requires CloseOnce(s.conn) && ClosedWhere(s) && Results(s)
    requires EnvEnabled(s, a) && t == EnvApply(s, a)
    ensures Results(t)
  {
  }

  lemma BdBody(s: State, i: nat, a: BodyAction, t: State)
    requires MuHeld(s.body) && BodyCounters(s.body)
    requires BodyEnabled(s.body, s.eofcClosed, i, a) && t == Apply(s, Bd(i, a))
    ensures MuHeld(t.body) && BodyCounters(t.body)
  {
  }

  lemma BdHandshake(s: State, i: nat, a: BodyAction, t: State)
    requires MuHeld(s.body) && BodyCounters(s.body) && Handshake(s.body, s.rl, s.eofcClosed)
    requires BodyEnabled(s.body, s.eofcClosed, i, a) && t == Apply(s, Bd(i, a))
    ensures Handshake(t.body, t.rl, t.eofcClosed)
  {
    TruesAppend(s.body.waitBody, true);
    TruesAppend(s.body.waitBody, false);
  }

  lemma BdRest(s: State, i: nat, a: BodyAction, t: State)
    requires CloseOnce(s.conn) && ClosedWhere(s) && OneRequest(s) && OneWriter(s.sending, s.wl)
    requires BodyDelivered(s) && Results(s)
    requires BodyEnabled(s.body, s.eofcClosed, i, a) && t == Apply(s, Bd(i, a))
    ensures CloseOnce(t.conn) && ClosedWhere(t) && OneRequest(t) && OneWriter(t.sending, t.wl)
    ensures BodyDelivered(t) && Results(t)
  {
  }

  lemma Step(s: State, a: Action)
    requires Inv(s) && Enabled(s, a)
    ensures Inv(Apply(s, a))
  {
    var t := Apply(s, a);
    match a
    case Env(e) =>
      EnvClose(s, e, t); EnvRequest(s, e, t); EnvWriter(s, e, t); EnvBody(s, e, t);
      EnvDelivered(s, e, t); EnvResults(s, e, t);
    case Rt(r) =>
      RtClose(s, r, t); RtRequest(s, r, t); RtWriter(s, r, t); RtBody(s, r, t);
      RtDelivered(s, r, t); RtResults(s, r, t);
    case Out(o) =>
      OutClose(s, o, t); OutRequest(s, o, t); OutWriter(s, o, t); OutBody(s, o, t);
      OutDelivered(s, o, t); OutResults(s, o, t);
    case Rl(r) =>
      RlClose(s, r, t); RlRequest(s, r, t); RlWriter(s, r, t); RlBody(s, r, t);
      RlDelivered(s, r, t); RlResults(s, r, t);
    case Fin(f) =>
      FinClose(s, f, t); FinRequest(s, f, t); FinWriter(s, f, t); FinBody(s, f, t);
      FinDelivered(s, f, t); FinResults(s, f, t);
    case Wl(w) =>
      WlClose(s, w, t); WlRequest(s, w, t); WlWriter(s, w, t); WlBody(s, w, t);
      WlDelivered(s, w, t); WlResults(s, w, t);
    case Bd(i, b) => BdBody(s, i, b, t); BdHandshake(s, i, b, t); BdRest(s, i, b, t);
  }

  lemma {:induction false} RunKeepsInv(s: State, actions: seq<Action>, t: State)
    requires Inv(s) && Run(s, actions, t)
    ensures Inv(t)
    decreases |actions|
  {
    if actions != [] {
      Step(s, actions[0]);
      RunKeepsInv(Apply(s, actions[0]), actions[1..], t);
    }
  }

  lemma ReachableInv(t: State)
    requires Reachable(t)
    ensures Inv(t)
  {
    var s, actions :| Init(s, 2) && Run(s, actions, t);
    InitInv(s);
    RunKeepsInv(s, actions, t);
  }

  // ----- what the invariant means for a caller -----

  /** The three marks of a closed connection agree, and no panic of closeLocked or roundTrip is reachable. */
  lemma ClosedExactlyOnce(t: State)
    requires Reachable(t)
    ensures (t.conn.closed.Some? <==> t.conn.closech) && (t.conn.closech <==> t.conn.broken)
    ensures !t.conn.panicked && t.conn.numExpected >= 0
    ensures t.rt.Returned? ==> !t.rt.out.NilResponseNilError?
  {
    ReachableInv(t);
  }

  /** The error of the first close is the one that stays. */
  lemma FirstCloseErrorKept(s: State, a: Action)
    requires Inv(s) && Enabled(s, a) && s.conn.closed.Some?
    ensures Apply(s, a).conn.closed == s.conn.closed
  {
    var t := Apply(s, a);
    match a
    case Env(x) => EnvClose(s, x, t);
    case Rt(x) => RtClose(s, x, t);
    case Out(x) => OutClose(s, x, t);
    case Rl(x) => RlClose(s, x, t);
    case Fin(x) => FinClose(s, x, t);
    case Wl(x) => WlClose(s, x, t);
    case Bd(_, _) =>
  }

  /**
   * nothingWrittenError means that the connection has not accepted a byte and, as writeLoop has
   * ended, never will; the "connection broken" error that is its alternative means that it has.
   */
  lemma NothingWrittenIsSound(t: State, e: Err)
    requires Reachable(t) && t.rt.Returned?
    ensures t.rt.out == Failure(NothingWritten(e)) ==> t.wl.WriterDone? && t.sending.wire == 0
    ensures t.rt.out == Failure(ConnBroken(e)) ==> t.wl.WriterDone? && t.sending.wire > 0
  {
    ReachableInv(t);
  }

  lemma WriterStaysDone(s: State, a: Action)
    requires Inv(s) && Enabled(s, a) && s.wl.WriterDone?
    ensures Apply(s, a).wl.WriterDone? && Apply(s, a).sending.wire == s.sending.wire
  {
    var t := Apply(s, a);
    match a
    case Env(x) => EnvWriter(s, x, t);
    case Rt(x) => RtWriter(s, x, t);
    case Out(x) => OutWriter(s, x, t);
    case Rl(x) => RlWriter(s, x, t);
    case Fin(x) => FinWriter(s, x, t);
    case Wl(x) => WlWriter(s, x, t);
    case Bd(_, _) =>
  }

  /** Once writeLoop has ended no action makes the connection accept another byte. */
  lemma {:induction false} NothingIsWrittenLater(s: State, actions: seq<Action>, t: State)
    requires Inv(s) && s.wl.WriterDone? && Run(s, actions, t)
    ensures t.wl.WriterDone? && t.sending.wire == s.sending.wire
    decreases |actions|
  {
    if actions != [] {
      Step(s, actions[0]);
      WriterStaysDone(s, actions[0]);
      NothingIsWrittenLater(Apply(s, actions[0]), actions[1..], t);
    }
  }

  /** fn and earlyCloseFn run at most once each, so waitForBodyRead never holds more than its capacity. */
  lemma BodyFunctionsRunOnce(t: State)
    requires Reachable(t)
    ensures t.body.fnRuns <= 1 && t.body.earlyRuns <= 1
    ensures |t.body.waitBody| + t.body.received <= t.body.fnRuns + t.body.earlyRuns <= 2
    ensures forall i :: 0 <= i < |t.body.calls| && (t.body.calls[i].FnSend? || t.body.calls[i].EarlySend?)
              ==> |t.body.waitBody| < t.body.cap
  {
    ReachableInv(t);
    forall i | 0 <= i < |t.body.calls| && (t.body.calls[i].FnSend? || t.body.calls[i].EarlySend?)
      ensures |t.body.waitBody| < t.body.cap
    {
      assert HoldsMu(t.body.calls[i]);
    }
  }

  /** At most one reader waits on eofc, and until eofc is closed it waits for a `true` of its own. */
  lemma OneReaderPerTrue(t: State, i: nat, j: nat)
    requires Reachable(t)
    requires i < |t.body.calls| && t.body.calls[i].EofcWait? && j < |t.body.calls| && t.body.calls[j].EofcWait?
    ensures i == j
    ensures t.eofcClosed || Trues(t.body.waitBody) + (if OwesEofc(t.rl) then 1 else 0) == 1
  {
    ReachableInv(t);
    assert HoldsMu(t.body.calls[i]) && HoldsMu(t.body.calls[j]);
  }
}
