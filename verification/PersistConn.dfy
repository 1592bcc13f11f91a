/**
 * One `persistConn` of the non-HTTP round tripper as a step relation.
 *
 * Four kinds of goroutine share the connection: the caller inside `roundTrip`,
 * `readLoop`, `writeLoop`, and any number of calls of `Read` and `Close` on the
 * response body.  A state holds their program counters, the fields of the
 * connection and the contents of its channels; an action is one channel
 * operation, one critical section that cannot block, or one answer of the
 * network, of a timer or of the caller.  `Enabled` says when an action can be
 * taken and `Apply` what it does.
 */
module PersistConn {
  import opened Basics

  datatype Err =
    | Eof
    | Net(code: nat)                 // an error of the connection or of code that is not modelled
    | ContextError(code: nat)        // what req.Context().Err() returns
    | ReadLoopExiting
    | KeepAlivesDisabled
    | ServerClosedIdle
    | RequestCanceled
    | HeaderTimeout
    | HeadersTooLong
    | PeekFailed(peek: Option<Err>)
    | ReadFromServer(read: Option<Err>)
    | WriteFailed(write: Err)
    | NothingWritten(cause: Err)
    | ConnBroken(cause: Err)

  /** What `roundTrip` returns. `Response(b)` is a response, with a body iff b. */
  datatype Outcome = Response(hasBody: bool) | Failure(err: Err) | NilResponseNilError

  /** The entry of the canceler table for this request. */
  datatype Canceler = NoCanceler | DialCanceler | ConnCanceler

  /** The flags of roundTrip's select: timer armed, cancelChan non-nil, ctxDoneChan non-nil. */
  datatype Watch = Watch(timer: bool, onCancel: bool, onContext: bool)

  datatype RoundTrip =
    | Uncalled
    | Abandoned                       // nobody waited for the dial: the connection was closed
    | Entered                         // at replaceReqCanceler
    | Refused                         // returned errRequestCanceled before sending anything
    | Expecting                       // at numExpectedResponses++
    | SendingWrite                    // at pc.writech <-
    | SendingReq                      // at pc.reqch <-
    | Selecting(watch: Watch)
    | TakingCancel(why: Err, watch: Watch)
    | CallingCancel(why: Err, watch: Watch)
    | WriteError(write: Err)          // at pc.close(write error)
    | TimedOut                        // at pc.close(errTimeout)
    | MapCanceled(first: Option<Err>) // mapRoundTripError, before pc.canceled()
    | MapRequestError(seen: Err)      // ... before reading req.err
    | MapBroken(seen: Err)            // ... before pc.isBroken()
    | AwaitingWriter(seen: Err)       // ... at <-pc.writeLoopDone
    | Leaving(out: Outcome)           // deferred setReqCanceler(nil) on an error
    | ClosingGone(out: Outcome)       // deferred close(gone)
    | Returned(out: Outcome)

  datatype ReadLoop =
    | Peeking
    | Checking(peek: Option<Err>)     // numExpectedResponses == 0 ?
    | ReceivingReq(peek: Option<Err>) // at <-pc.reqch
    | Reading                         // readResponse
    | SendingError(err: Option<Err>)  // select: rc.ch <- error, callerGone
    | GotResponse(hasBody: bool)      // at numExpectedResponses--
    | NoBodyClear                     // setReqCanceler(nil)
    | NoBodyPut                       // alive && !sawEOF && wroteRequest() && tryPutIdleConn()
    | SendingResponse(hasBody: bool)  // select: rc.ch <- response, callerGone
    | AwaitingBody                    // select: waitForBodyRead, Cancel, Done, closech
    | BodyClear(eof: bool)
    | BodyPut(eof: bool)
    | SendingEofc                     // at eofc <-
    | TakingCancelRL(why: Err)
    | CallingCancelRL(why: Err)
    | LoopEnd
    | Exiting                         // deferred close(eofc)
    | ClosingConn                     // deferred pc.close(closeErr)
    | Ended

  datatype WriteLoop =
    | WaitingWork                     // select: writech, closech
    | Writing(start: nat)             // inside writerequest / Flush
    | Counting(start: nat, n: nat)    // conn.Write accepted n bytes, nwrite not yet updated
    | SendingPcErr(err: Option<Err>)  // at pc.writeErrCh <-
    | SendingRtErr(err: Option<Err>)  // at wr.ch <-
    | AfterWrite(err: Option<Err>)
    | WriterLeaving                   // deferred close(writeLoopDone)
    | WriterDone

  /** One call of Read or Close on the bodyEOFSignal. */
  datatype Call =
    | ReadStart
    | BodyRead                        // es.body.Read, es.mu not held
    | ReadFailed(readErr: Err)        // at es.mu.Lock after the failing Read
    | FnSend(fnErr: Option<Err>)      // in fn, at waitForBodyRead <-; holds es.mu
    | EofcWait                        // in fn, at <-eofc; holds es.mu
    | CloseStart
    | EarlySend                       // in earlyCloseFn, at waitForBodyRead <- false; holds es.mu
    | BodyClose                       // es.body.Close; holds es.mu
    | CallDone

  /** The mutex-guarded fields of persistConn and closech. `panicked` records a panic in closeLocked or roundTrip. */
  datatype Conn = Conn(closed: Option<Err>, closech: bool, broken: bool, canceledErr: Option<Err>,
                       numExpected: int, panicked: bool)

  /** What roundTrip and writeLoop share. `wire` counts the bytes the connection accepted;
      `wrote` and `took` record that the request was queued for writeLoop and taken by it. */
  datatype Sending = Sending(writech: nat, nwrite: nat, wire: nat, startBytes: nat,
                             pcWriteErr: seq<Option<Err>>, rtWriteErr: seq<Option<Err>>, reqErr: Option<Err>,
                             writeLoopDone: bool, wrote: bool, took: bool)

  /** The request: queued for readLoop, canceler, Cancel and Done channels, `gone`, and the
      cancel functions outsiders have taken from the table and not yet run. */
  datatype Request = Request(reqch: nat, headerTimeout: bool, canceler: Canceler, reqCancel: bool,
                             contextDone: bool, gone: bool, pending: seq<Err>)

  /** The bodyEOFSignal with its channel of capacity `cap`; counters of what has run so far. */
  datatype Body = Body(cap: nat, waitBody: seq<bool>, esClosed: bool, rerr: Option<Err>, fnSet: bool,
                       mu: Option<nat>, calls: seq<Call>, fnRuns: nat, earlyRuns: nat, received: nat)

  datatype State = State(conn: Conn, sending: Sending, req: Request, body: Body,
                         rt: RoundTrip, rl: ReadLoop, wl: WriteLoop,
                         alive: bool, sawEOF: bool, closeErr: Option<Err>, eofcClosed: bool)

  predicate Init(s: State, bodyCap: nat) {
    && s.conn == Conn(None, false, false, None, 0, false)
    && s.sending == Sending(0, 0, 0, 0, [], [], None, false, false, false)
    && s.req.reqch == 0 && s.req.canceler != ConnCanceler && !s.req.gone && s.req.pending == []
    && s.body == Body(bodyCap, [], false, None, true, None, [], 0, 0, 0)
    && s.rt == Uncalled && s.rl == Peeking && s.wl == WaitingWork
    && s.alive && !s.sawEOF && s.closeErr == Some(ReadLoopExiting) && !s.eofcClosed
  }

  /** `tryPutIdleConn` of this round tripper keeps no connection. */
  function TryPutIdleConn(): Option<Err> { Some(KeepAlivesDisabled) }

  /** `closeLocked`: the first error wins; a nil error is a panic. */
  function CloseLocked(c: Conn, err: Option<Err>): Conn {
    if err.None? then c.(panicked := true)
    else if c.closed.None? then c.(broken := true, closed := err, closech := true)
    else c.(broken := true)
  }

  /** `persistConn.cancelRequest`. */
  function CancelConn(c: Conn, err: Err): Conn {
    CloseLocked(c.(canceledErr := Some(err)), Some(RequestCanceled))
  }

  /** `readLoopPeekFailLocked`. */
  function PeekFail(c: Conn, peek: Option<Err>): Conn {
    if c.closed.Some? then c
    else CloseLocked(c, Some(if peek == Some(Eof) then ServerClosedIdle else PeekFailed(peek)))
  }

  /** Code that is not modelled answers with nil, io.EOF or an error of its own. */
  predicate Foreign(err: Option<Err>) { err.Some? ==> err.value == Eof || err.value.Net? }

  // ----- the caller and its environment -----

  datatype EnvAction =
    | CallRoundTrip | Abandon | CloseReqCancel | EndContext | TakeCanceler | RunCancel(i: nat) | StartRead | StartClose

  predicate EnvEnabled(s: State, a: EnvAction) {
    match a
    case CallRoundTrip => s.rt == Uncalled
    case Abandon => s.rt == Uncalled
    case CloseReqCancel => !s.req.reqCancel
    case EndContext => !s.req.contextDone
    case TakeCanceler => s.req.canceler != NoCanceler
    case RunCancel(i) => i < |s.req.pending|
    case StartRead => s.rt == Returned(Response(true))
    case StartClose => s.rt == Returned(Response(true))
  }

  function EnvApply(s: State, a: EnvAction): State
    requires EnvEnabled(s, a)
  {
    match a
    case CallRoundTrip => s.(rt := Entered)
    case Abandon => s.(conn := CloseLocked(s.conn, TryPutIdleConn()), rt := Abandoned)
    case CloseReqCancel => s.(req := s.req.(reqCancel := true))
    case EndContext => s.(req := s.req.(contextDone := true))
    case TakeCanceler =>
      s.(req := s.req.(canceler := NoCanceler,
                       pending := if s.req.canceler == ConnCanceler then s.req.pending + [RequestCanceled]
                                  else s.req.pending))
    case RunCancel(i) =>
      s.(conn := CancelConn(s.conn, s.req.pending[i]),
         req := s.req.(pending := s.req.pending[..i] + s.req.pending[i + 1..]))
    case StartRead => s.(body := s.body.(calls := s.body.calls + [ReadStart]))
    case StartClose => s.(body := s.body.(calls := s.body.calls + [CloseStart]))
  }

  // ----- roundTrip -----

  datatype RtAction =
    | RtReplace | RtExpect | RtSendWrite | RtSendReq | RtRecvWriteErr | RtRecvClosech | RtTimer
    | RtPickCancel | RtPickContext(code: nat) | RtTakeCancel | RtCallCancel | RtCloseWriteError | RtCloseTimeout

  predicate RtEnabled(s: State, a: RtAction) {
    match a
    case RtReplace => s.rt == Entered
    case RtExpect => s.rt == Expecting
    case RtSendWrite => s.rt == SendingWrite && s.sending.writech < 1
    case RtSendReq => s.rt == SendingReq && s.req.reqch < 1
    case RtRecvWriteErr => s.rt.Selecting? && s.sending.rtWriteErr != []
    case RtRecvClosech => s.rt.Selecting? && s.conn.closech
    case RtTimer => s.rt.Selecting? && s.rt.watch.timer
    case RtPickCancel => s.rt.Selecting? && s.rt.watch.onCancel && s.req.reqCancel
    case RtPickContext(_) => s.rt.Selecting? && s.rt.watch.onContext && s.req.contextDone
    case RtTakeCancel => s.rt.TakingCancel?
    case RtCallCancel => s.rt.CallingCancel?
    case RtCloseWriteError => s.rt.WriteError?
    case RtCloseTimeout => s.rt.TimedOut?
  }

  function RtApply(s: State, a: RtAction): State
    requires RtEnabled(s, a)
  {
    match a
    case RtReplace =>
      if s.req.canceler == NoCanceler then s.(conn := CloseLocked(s.conn, TryPutIdleConn()), rt := Refused)
      else s.(req := s.req.(canceler := ConnCanceler), rt := Expecting)
    case RtExpect => s.(conn := s.conn.(numExpected := s.conn.numExpected + 1), rt := SendingWrite)
    case RtSendWrite =>
      s.(sending := s.sending.(startBytes := s.sending.nwrite, writech := s.sending.writech + 1, wrote := true),
         rt := SendingReq)
    case RtSendReq => s.(req := s.req.(reqch := s.req.reqch + 1), rt := Selecting(Watch(false, true, true)))
    case RtRecvWriteErr =>
      var err := s.sending.rtWriteErr[0];
      s.(sending := s.sending.(rtWriteErr := s.sending.rtWriteErr[1..]),
         rt := if err.Some? then WriteError(err.value)
               else Selecting(s.rt.watch.(timer := s.rt.watch.timer || s.req.headerTimeout)))
    case RtRecvClosech => s.(rt := MapCanceled(s.conn.closed))
    case RtTimer => s.(rt := TimedOut)
    case RtPickCancel => s.(rt := TakingCancel(RequestCanceled, s.rt.watch.(onCancel := false)))
    case RtPickContext(code) =>
      s.(rt := TakingCancel(ContextError(code), s.rt.watch.(onCancel := false, onContext := false)))
    case RtTakeCancel =>
      s.(req := s.req.(canceler := NoCanceler),
         rt := if s.req.canceler == ConnCanceler then CallingCancel(s.rt.why, s.rt.watch) else Selecting(s.rt.watch))
    case RtCallCancel => s.(conn := CancelConn(s.conn, s.rt.why), rt := Selecting(s.rt.watch))
    case RtCloseWriteError =>
      s.(conn := CloseLocked(s.conn, Some(WriteFailed(s.rt.write))), rt := MapCanceled(Some(s.rt.write)))
    case RtCloseTimeout =>
      s.(conn := CloseLocked(s.conn, Some(HeaderTimeout)), rt := Leaving(Failure(HeaderTimeout)))
  }

  // ----- roundTrip: mapRoundTripError and the deferred calls -----

  datatype OutAction =
    | OutMapCanceled | OutMapRequestError | OutMapBroken | OutWriterDone | OutLeave | OutCloseGone

  predicate OutEnabled(s: State, a: OutAction) {
    match a
    case OutMapCanceled => s.rt.MapCanceled?
    case OutMapRequestError => s.rt.MapRequestError?
    case OutMapBroken => s.rt.MapBroken?
    case OutWriterDone => s.rt.AwaitingWriter? && s.sending.writeLoopDone
    case OutLeave => s.rt.Leaving?
    case OutCloseGone => s.rt.ClosingGone?
  }

  function OutApply(s: State, a: OutAction): State
    requires OutEnabled(s, a)
  {
    match a
    case OutMapCanceled =>
      s.(rt := if s.rt.first.None? then ClosingGone(NilResponseNilError)
               else if s.conn.canceledErr.Some? then Leaving(Failure(s.conn.canceledErr.value))
               else MapRequestError(s.rt.first.value))
    case OutMapRequestError =>
      s.(rt := if s.sending.reqErr.Some? then Leaving(Failure(s.sending.reqErr.value))
               else if s.rt.seen == ServerClosedIdle || s.rt.seen.ReadFromServer? then Leaving(Failure(s.rt.seen))
               else MapBroken(s.rt.seen))
    case OutMapBroken =>
      s.(rt := if s.conn.closed.Some? then AwaitingWriter(s.rt.seen) else Leaving(Failure(s.rt.seen)))
    case OutWriterDone =>
      s.(rt := Leaving(Failure(if s.sending.nwrite == s.sending.startBytes then NothingWritten(s.rt.seen)
                               else ConnBroken(s.rt.seen))))
    case OutLeave => s.(req := s.req.(canceler := NoCanceler), rt := ClosingGone(s.rt.out))
    case OutCloseGone => s.(req := s.req.(gone := true), rt := Returned(s.rt.out))
  }

  // ----- readLoop, up to the delivery of the response -----

  datatype RlAction =
    | RlPeek(peek: Option<Err>) | RlCheck | RlRecvReq(limitHit: bool)
    | RlReadFailed(read: Err, limitHit: bool) | RlReadOk(hasBody: bool, keepAlive: bool, sawEof: bool)
    | RlDeliverError | RlDeliverResponse | RlCallerGone | RlExpectDown

  /** The error readLoop reports once the header limit is used up replaces the real one. */
  function Limited(err: Option<Err>, limitHit: bool): Option<Err> {
    if limitHit then Some(HeadersTooLong) else err
  }

  predicate RlEnabled(s: State, a: RlAction) {
    match a
    case RlPeek(peek) => s.rl.Peeking? && Foreign(peek)
    case RlCheck => s.rl.Checking?
    case RlRecvReq(_) => s.rl.ReceivingReq? && s.req.reqch > 0
    case RlReadFailed(read, _) => s.rl.Reading? && Foreign(Some(read))
    case RlReadOk(_, _, _) => s.rl.Reading?
    case RlDeliverError => s.rl.SendingError? && s.rt.Selecting?
    case RlDeliverResponse => s.rl.SendingResponse? && s.rt.Selecting?
    case RlCallerGone => (s.rl.SendingError? || s.rl.SendingResponse?) && s.req.gone
    case RlExpectDown => s.rl.GotResponse?
  }

  function RlApply(s: State, a: RlAction): State
    requires RlEnabled(s, a)
  {
    match a
    case RlPeek(peek) => s.(sawEOF := s.sawEOF || peek == Some(Eof), rl := Checking(peek))
    case RlCheck =>
      if s.conn.numExpected == 0 then s.(conn := PeekFail(s.conn, s.rl.peek), rl := Exiting)
      else s.(rl := ReceivingReq(s.rl.peek))
    case RlRecvReq(limitHit) =>
      var t := s.(req := s.req.(reqch := s.req.reqch - 1));
      if s.rl.peek.None? then t.(rl := Reading)
      else
        var err := Some(ReadFromServer(s.rl.peek));
        t.(closeErr := err, rl := SendingError(Limited(err, limitHit)))
    case RlReadFailed(read, limitHit) =>
      s.(sawEOF := s.sawEOF || read == Eof, rl := SendingError(Limited(Some(read), limitHit)))
    case RlReadOk(hasBody, keepAlive, sawEof) =>
      s.(sawEOF := s.sawEOF || sawEof, alive := s.alive && keepAlive, rl := GotResponse(hasBody))
    case RlDeliverError =>
      s.(conn := s.conn.(panicked := s.conn.panicked || s.rl.err.None?), rt := MapCanceled(s.rl.err), rl := Exiting)
    case RlDeliverResponse =>
      s.(rt := ClosingGone(Response(s.rl.hasBody)), rl := if s.rl.hasBody then AwaitingBody else LoopEnd)
    case RlCallerGone => s.(rl := Exiting)
    case RlExpectDown =>
      s.(conn := s.conn.(numExpected := s.conn.numExpected - 1),
         rl := if s.rl.hasBody then SendingResponse(true) else NoBodyClear)
  }

  // ----- readLoop, from recycling the connection to the deferred calls -----

  datatype FinAction =
    | FinClear | FinPutSkip | FinPutRecv | FinPutTimer
    | FinRecvBody | FinPickCancel | FinPickContext(code: nat) | FinPickClosech | FinTakeCancel | FinCallCancel
    | FinSendEofc(i: nat) | FinLoopEnd | FinCloseEofc | FinCloseConn

  /** `alive && [bodyEOF &&] !sawEOF`, the guard in front of wroteRequest(). */
  predicate ConsultsWriter(s: State) {
    s.alive && !s.sawEOF && (s.rl == NoBodyPut || s.rl == BodyPut(true))
  }

  predicate FinEnabled(s: State, a: FinAction) {
    match a
    case FinClear => s.rl.NoBodyClear? || s.rl.BodyClear?
    case FinPutSkip => (s.rl.NoBodyPut? || s.rl.BodyPut?) && !ConsultsWriter(s)
    case FinPutRecv => ConsultsWriter(s) && s.sending.pcWriteErr != []
    case FinPutTimer => ConsultsWriter(s)
    case FinRecvBody => s.rl.AwaitingBody? && s.body.waitBody != []
    case FinPickCancel => s.rl.AwaitingBody? && s.req.reqCancel
    case FinPickContext(_) => s.rl.AwaitingBody? && s.req.contextDone
    case FinPickClosech => s.rl.AwaitingBody? && s.conn.closech
    case FinTakeCancel => s.rl.TakingCancelRL?
    case FinCallCancel => s.rl.CallingCancelRL?
    case FinSendEofc(i) => s.rl.SendingEofc? && i < |s.body.calls| && s.body.calls[i].EofcWait?
    case FinLoopEnd => s.rl.LoopEnd?
    case FinCloseEofc => s.rl.Exiting?
    case FinCloseConn => s.rl.ClosingConn?
  }

  function AfterPut(rl: ReadLoop): ReadLoop
    requires rl.NoBodyPut? || rl.BodyPut?
  {
    if rl.NoBodyPut? then SendingResponse(false) else if rl.eof then SendingEofc else LoopEnd
  }

  /** fn returns: es.fn = nil, es.mu is released, the call is over. */
  function FnReturns(b: Body, i: nat): Body
    requires i < |b.calls|
  {
    b.(fnSet := false, mu := None, calls := b.calls[i := CallDone])
  }

  function FinApply(s: State, a: FinAction): State
    requires FinEnabled(s, a)
  {
    match a
    case FinClear =>
      s.(req := s.req.(canceler := NoCanceler), rl := if s.rl.NoBodyClear? then NoBodyPut else BodyPut(s.rl.eof))
    case FinPutSkip => s.(alive := false, rl := AfterPut(s.rl))
    case FinPutRecv =>
      var ok := s.sending.pcWriteErr[0].None?;
      s.(sending := s.sending.(pcWriteErr := s.sending.pcWriteErr[1..]),
         closeErr := if ok && TryPutIdleConn().Some? then TryPutIdleConn() else s.closeErr,
         alive := ok && TryPutIdleConn().None?,
         rl := AfterPut(s.rl))
    case FinPutTimer => s.(alive := false, rl := AfterPut(s.rl))
    case FinRecvBody =>
      s.(body := s.body.(waitBody := s.body.waitBody[1..], received := s.body.received + 1),
         rl := BodyClear(s.body.waitBody[0]))
    case FinPickCancel => s.(alive := false, rl := TakingCancelRL(RequestCanceled))
    case FinPickContext(code) => s.(alive := false, rl := TakingCancelRL(ContextError(code)))
    case FinPickClosech => s.(alive := false, rl := LoopEnd)
    case FinTakeCancel =>
      s.(req := s.req.(canceler := NoCanceler),
         rl := if s.req.canceler == ConnCanceler then CallingCancelRL(s.rl.why) else LoopEnd)
    case FinCallCancel => s.(conn := CancelConn(s.conn, s.rl.why), rl := LoopEnd)
    case FinSendEofc(i) => s.(body := FnReturns(s.body, i), rl := LoopEnd)
    case FinLoopEnd => s.(rl := if s.alive then Peeking else Exiting)
    case FinCloseEofc => s.(eofcClosed := true, rl := ClosingConn)
    case FinCloseConn => s.(conn := CloseLocked(s.conn, s.closeErr), rl := Ended)
  }

  // ----- writeLoop -----

  datatype WlAction =
    | WlRecv | WlRecvClosech | WlConnWrite(n: nat) | WlCount | WlFinish(err: Option<Err>, fromBody: bool)
    | WlSendPcErr | WlSendRtErr | WlAfter | WlLeave

  predicate WlEnabled(s: State, a: WlAction) {
    match a
    case WlRecv => s.wl.WaitingWork? && s.sending.writech > 0
    case WlRecvClosech => s.wl.WaitingWork? && s.conn.closech
    case WlConnWrite(_) => s.wl.Writing?
    case WlCount => s.wl.Counting?
    case WlFinish(err, _) => s.wl.Writing? && Foreign(err)
    case WlSendPcErr => s.wl.SendingPcErr? && |s.sending.pcWriteErr| < 1
    case WlSendRtErr => s.wl.SendingRtErr? && |s.sending.rtWriteErr| < 1
    case WlAfter => s.wl.AfterWrite?
    case WlLeave => s.wl.WriterLeaving?
  }

  function WlApply(s: State, a: WlAction): State
    requires WlEnabled(s, a)
  {
    var d := s.sending;
    match a
    case WlRecv => s.(sending := d.(writech := d.writech - 1, took := true), wl := Writing(d.nwrite))
    case WlRecvClosech => s.(wl := WriterLeaving)
    case WlConnWrite(n) => s.(sending := d.(wire := d.wire + n), wl := Counting(s.wl.start, n))
    case WlCount => s.(sending := d.(nwrite := d.nwrite + s.wl.n), wl := Writing(s.wl.start))
    case WlFinish(err, fromBody) =>
      s.(sending := d.(reqErr := if fromBody && err.Some? && d.reqErr.None? then err else d.reqErr),
         wl := SendingPcErr(if err.Some? && d.nwrite == s.wl.start then Some(NothingWritten(err.value)) else err))
    case WlSendPcErr => s.(sending := d.(pcWriteErr := d.pcWriteErr + [s.wl.err]), wl := SendingRtErr(s.wl.err))
    case WlSendRtErr => s.(sending := d.(rtWriteErr := d.rtWriteErr + [s.wl.err]), wl := AfterWrite(s.wl.err))
    case WlAfter =>
      if s.wl.err.Some? then s.(conn := CloseLocked(s.conn, s.wl.err), wl := WriterLeaving) else s.(wl := WaitingWork)
    case WlLeave => s.(sending := d.(writeLoopDone := true), wl := WriterDone)
  }

  // ----- Read and Close of the body -----

  /** `connEof`: the connection reported its end to this call, which is not what the end of the body means:
      a body of known length or in chunks ends while the connection is open. */
  datatype BodyAction =
    | BdReadStart | BdReadDone(err: Option<Err>, connEof: bool) | BdReadFailed | BdFnSend | BdEofcClosed
    | BdCloseStart | BdEarlySend | BdCloseDone(err: Option<Err>, connEof: bool)

  predicate SeesConnEof(a: BodyAction) { (a.BdReadDone? || a.BdCloseDone?) && a.connEof }

  predicate BodyEnabled(b: Body, eofcClosed: bool, i: nat, a: BodyAction) {
    i < |b.calls| &&
    match a
    case BdReadStart => b.calls[i].ReadStart? && b.mu == None
    case BdReadDone(err, _) => b.calls[i].BodyRead? && Foreign(err)
    case BdReadFailed => b.calls[i].ReadFailed? && b.mu == None
    case BdFnSend => b.calls[i].FnSend? && |b.waitBody| < b.cap
    case BdEofcClosed => b.calls[i].EofcWait? && eofcClosed
    case BdCloseStart => b.calls[i].CloseStart? && b.mu == None
    case BdEarlySend => b.calls[i].EarlySend? && |b.waitBody| < b.cap
    case BdCloseDone(err, _) => b.calls[i].BodyClose? && Foreign(err)
  }

  /** `condfn`, called with es.mu: runs fn unless it already ran. */
  function CondFn(b: Body, i: nat, err: Option<Err>): Body
    requires i < |b.calls|
  {
    if b.fnSet then b.(mu := Some(i), fnRuns := b.fnRuns + 1, calls := b.calls[i := FnSend(err)])
    else b.(mu := None, calls := b.calls[i := CallDone])
  }

  function BodyApply(b: Body, i: nat, a: BodyAction): Body
    requires BodyEnabled(b, true, i, a)
  {
    match a
    case BdReadStart => b.(calls := b.calls[i := if b.esClosed || b.rerr.Some? then CallDone else BodyRead])
    case BdReadDone(err, _) => b.(calls := b.calls[i := if err.Some? then ReadFailed(err.value) else CallDone])
    case BdReadFailed =>
      var err := Some(b.calls[i].readErr);
      CondFn(b.(rerr := if b.rerr.None? then err else b.rerr), i, err)
    case BdFnSend =>
      var eof := b.calls[i].fnErr == Some(Eof);
      var t := b.(waitBody := b.waitBody + [eof]);
      if eof then t.(calls := b.calls[i := EofcWait]) else FnReturns(t, i)
    case BdEofcClosed => FnReturns(b, i)
    case BdCloseStart =>
      if b.esClosed then b.(calls := b.calls[i := CallDone])
      else if b.rerr != Some(Eof) then
        b.(esClosed := true, mu := Some(i), earlyRuns := b.earlyRuns + 1, calls := b.calls[i := EarlySend])
      else b.(esClosed := true, mu := Some(i), calls := b.calls[i := BodyClose])
    case BdEarlySend => b.(waitBody := b.waitBody + [false], mu := None, calls := b.calls[i := CallDone])
    case BdCloseDone(err, _) => CondFn(b, i, err)
  }

  // ----- all together -----

  datatype Action = Env(env: EnvAction) | Rt(rt: RtAction) | Out(out: OutAction)
                  | Rl(rl: RlAction) | Fin(fin: FinAction) | Wl(wl: WlAction)
                  | Bd(call: nat, bd: BodyAction)

  predicate Enabled(s: State, a: Action) {
    match a
    case Env(e) => EnvEnabled(s, e)
    case Rt(r) => RtEnabled(s, r)
    case Out(o) => OutEnabled(s, o)
    case Rl(r) => RlEnabled(s, r)
    case Fin(f) => FinEnabled(s, f)
    case Wl(w) => WlEnabled(s, w)
    case Bd(i, b) => BodyEnabled(s.body, s.eofcClosed, i, b)
  }

  function Apply(s: State, a: Action): State
    requires Enabled(s, a)
  {
    match a
    case Env(e) => EnvApply(s, e)
    case Rt(r) => RtApply(s, r)
    case Out(o) => OutApply(s, o)
    case Rl(r) => RlApply(s, r)
    case Fin(f) => FinApply(s, f)
    case Wl(w) => WlApply(s, w)
    case Bd(i, b) => s.(body := BodyApply(s.body, i, b), sawEOF := s.sawEOF || SeesConnEof(b))
  }

  /** A run: every action is enabled where it is taken. */
  predicate Run(s: State, actions: seq<Action>, t: State)
    decreases |actions|
  {
    if actions == [] then t == s
    else Enabled(s, actions[0]) && Run(Apply(s, actions[0]), actions[1..], t)
  }

  /** The states of a connection made by `dialConn`, where waitForBodyRead has capacity 2. */
  ghost predicate Reachable(t: State) {
    exists s, actions :: Init(s, 2) && Run(s, actions, t)
  }
}
