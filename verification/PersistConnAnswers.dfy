/**
 * What `roundTrip` returns, read off the actions of a run.
 *
 * A `Story` is told by the actions alone: it knows what was read, written, cancelled and closed, and
 * which answer the caller is due. The theorems say that the connection gives exactly that answer.
 */
module PersistConnAnswers {
  import opened Basics
  import opened PersistConn
  import opened PersistConnSafety

  // ----- the story of a run -----

  /** The first error the connection was closed with, and the error of the last cancel that reached it. */
  datatype Fate = Fate(closed: Option<Err>, canceled: Option<Err>)

  /** The canceler table has an entry for the request; roundTrip has put its own there; a header timeout is set. */
  datatype Entry = Entry(present: bool, own: bool, limit: bool)

  /** Bytes accepted, the error writeLoop reports, the error of the request's own body. */
  datatype Written = Written(bytes: nat, report: Option<Err>, bodyErr: Option<Err>)

  /** What readLoop has seen, what it offers the caller, and the error it will close with. */
  datatype Seen = Seen(peek: Option<Err>, read: Option<bool>, offered: Option<Err>, closeErr: Err,
                       why: Err, taking: bool, calling: bool)

  /** The caller: a response is expected of the connection; what its select
      still watches; the reason to cancel, which is next to be looked up, or called; the error that goes to
      mapRoundTripError; the answer. */
  datatype Told = Told(expected: bool, watch: Watch, why: Err, taking: bool, calling: bool,
                       first: Option<Err>, answer: Option<Outcome>)

  datatype Story = Story(fate: Fate, entry: Entry, written: Written, seen: Seen, told: Told)

  function Begin(s: State): Story {
    Story(Fate(None, None), Entry(s.req.canceler != NoCanceler, false, s.req.headerTimeout), Written(0, None, None),
          Seen(None, None, None, ReadLoopExiting, RequestCanceled, false, false),
          Told(false, Watch(false, true, true), RequestCanceled, false, false, None, None))
  }

  function Closed(f: Fate, err: Err): Fate { if f.closed.None? then f.(closed := Some(err)) else f }

  /** Every cancel closes with the same error, and is remembered by its own. */
  function Canceled(f: Fate, why: Err): Fate { Closed(f, RequestCanceled).(canceled := Some(why)) }

  function Answer(h: Story, out: Outcome): Story { h.(told := h.told.(answer := Some(out))) }

  function TellEnv(h: Story, a: EnvAction): Story {
    match a
    case Abandon => h.(fate := Closed(h.fate, KeepAlivesDisabled))
    case TakeCanceler => h.(entry := h.entry.(present := false))
    case RunCancel(_) => h.(fate := Canceled(h.fate, RequestCanceled))
    case _ => h
  }

  function TellRt(h: Story, a: RtAction): Story {
    match a
    case RtReplace =>
      if h.entry.present then h.(entry := h.entry.(own := true)) else h.(fate := Closed(h.fate, KeepAlivesDisabled))
    case RtExpect => h.(told := h.told.(expected := true))
    case RtRecvWriteErr =>
      if h.written.report.Some? then h.(told := h.told.(first := h.written.report))
      else if h.entry.limit then h.(told := h.told.(watch := h.told.watch.(timer := true)))
      else h
    case RtRecvClosech => h.(told := h.told.(first := h.fate.closed))
    case RtTimer => Answer(h, Failure(HeaderTimeout))
    case RtPickCancel =>
      h.(told := h.told.(why := RequestCanceled, taking := true, watch := h.told.watch.(onCancel := false)))
    case RtPickContext(code) =>
      var watch := h.told.watch.(onCancel := false, onContext := false);
      h.(told := h.told.(why := ContextError(code), taking := true, watch := watch))
    case RtTakeCancel =>
      h.(told := h.told.(taking := false, calling := h.entry.present && h.entry.own),
         entry := h.entry.(present := false))
    case RtCallCancel => h.(told := h.told.(calling := false), fate := Canceled(h.fate, h.told.why))
    case RtCloseWriteError =>
      if h.told.first.Some? then h.(fate := Closed(h.fate, WriteFailed(h.told.first.value))) else h
    case RtCloseTimeout => h.(fate := Closed(h.fate, HeaderTimeout))
    case _ => h
  }

  function TellOut(h: Story, a: OutAction): Story {
    if h.told.first.None? then if a.OutLeave? then h.(entry := h.entry.(present := false)) else h
    else
      var first := h.told.first.value;
      match a
      case OutMapCanceled => if h.fate.canceled.Some? then Answer(h, Failure(h.fate.canceled.value)) else h
      case OutMapRequestError =>
        if h.written.bodyErr.Some? then Answer(h, Failure(h.written.bodyErr.value))
        else if first == ServerClosedIdle || first.ReadFromServer? then Answer(h, Failure(first))
        else h
      case OutMapBroken => if h.fate.closed.None? then Answer(h, Failure(first)) else h
      case OutWriterDone =>
        Answer(h, Failure(if h.written.bytes == 0 then NothingWritten(first) else ConnBroken(first)))
      case OutLeave => h.(entry := h.entry.(present := false))
      case OutCloseGone => h
  }

  function TellRl(h: Story, a: RlAction): Story {
    match a
    case RlPeek(peek) => h.(seen := h.seen.(peek := peek))
    case RlCheck =>
      if h.told.expected then h
      else h.(fate := Closed(h.fate, if h.seen.peek == Some(Eof) then ServerClosedIdle else PeekFailed(h.seen.peek)))
    case RlRecvReq(limitHit) =>
      if h.seen.peek.None? then h
      else
        var err := ReadFromServer(h.seen.peek);
        h.(seen := h.seen.(closeErr := err, offered := Some(if limitHit then HeadersTooLong else err)))
    case RlReadFailed(read, limitHit) =>
      h.(seen := h.seen.(offered := Some(if limitHit then HeadersTooLong else read)))
    case RlReadOk(hasBody, _, _) => h.(seen := h.seen.(read := Some(hasBody)))
    case RlDeliverError => h.(told := h.told.(first := h.seen.offered))
    case RlDeliverResponse => if h.seen.read.Some? then Answer(h, Response(h.seen.read.value)) else h
    case _ => h
  }

  function TellFin(h: Story, a: FinAction): Story {
    match a
    case FinClear => h.(entry := h.entry.(present := false))
    case FinPutRecv => if h.written.report.None? then h.(seen := h.seen.(closeErr := KeepAlivesDisabled)) else h
    case FinPickCancel => h.(seen := h.seen.(why := RequestCanceled, taking := true))
    case FinPickContext(code) => h.(seen := h.seen.(why := ContextError(code), taking := true))
    case FinTakeCancel =>
      h.(seen := h.seen.(taking := false, calling := h.entry.present && h.entry.own),
         entry := h.entry.(present := false))
    case FinCallCancel => h.(seen := h.seen.(calling := false), fate := Canceled(h.fate, h.seen.why))
    case FinCloseConn => h.(fate := Closed(h.fate, h.seen.closeErr))
    case _ => h
  }

  function TellWl(h: Story, a: WlAction): Story {
    match a
    case WlConnWrite(n) => h.(written := h.written.(bytes := h.written.bytes + n))
    case WlFinish(err, fromBody) =>
      h.(written := h.written.(
        report := if err.Some? && h.written.bytes == 0 then Some(NothingWritten(err.value)) else err,
        bodyErr := if fromBody then err else None))
    case WlAfter => if h.written.report.Some? then h.(fate := Closed(h.fate, h.written.report.value)) else h
    case _ => h
  }

  function Tell(h: Story, a: Action): Story {
    match a
    case Env(e) => TellEnv(h, e)
    case Rt(r) => TellRt(h, r)
    case Out(o) => TellOut(h, o)
    case Rl(r) => TellRl(h, r)
    case Fin(f) => TellFin(h, f)
    case Wl(w) => TellWl(h, w)
    case Bd(_, _) => h
  }

  function StoryOf(h: Story, actions: seq<Action>): Story
    decreases |actions|
  {
    if actions == [] then h else StoryOf(Tell(h, actions[0]), actions[1..])
  }

  // ----- the connection is as the story has it -----

  predicate FateIs(c: Conn, f: Fate) { c.closed == f.closed && c.canceledErr == f.canceled }

  predicate EntryIs(r: Request, rt: RoundTrip, e: Entry) {
    && (r.canceler != NoCanceler <==> e.present)
    && (r.canceler == ConnCanceler <==> e.present && e.own) && r.headerTimeout == e.limit
    && (e.own <==> !rt.Uncalled? && !rt.Abandoned? && !rt.Entered? && !rt.Refused?)
    && (forall i :: 0 <= i < |r.pending| ==> r.pending[i] == RequestCanceled)
  }

  predicate WrittenIs(d: Sending, wl: WriteLoop, w: Written) {
    && d.wire == w.bytes && d.reqErr == w.bodyErr
    && (wl.SendingPcErr? || wl.SendingRtErr? || wl.AfterWrite? ==> wl.err == w.report)
    && (forall i :: 0 <= i < |d.pcWriteErr| ==> d.pcWriteErr[i] == w.report)
    && (forall i :: 0 <= i < |d.rtWriteErr| ==> d.rtWriteErr[i] == w.report)
    && (!d.took || wl.Writing? || wl.Counting? ==> w.report.None? && w.bodyErr.None?)
  }

  predicate SeenIs(rl: ReadLoop, closeErr: Option<Err>, n: Seen) {
    && closeErr == Some(n.closeErr)
    && (rl.Checking? || rl.ReceivingReq? ==> rl.peek == n.peek)
    && (rl.SendingError? ==> rl.err == n.offered)
    && (BeforeReq(rl) || rl.Reading? ==> n.read.None?)
    && (rl.GotResponse? || rl.SendingResponse? ==> n.read == Some(rl.hasBody))
    && (rl.NoBodyClear? || rl.NoBodyPut? ==> n.read == Some(false))
    && (AfterBodyDelivered(rl) ==> n.read == Some(true))
    && (rl.TakingCancelRL? || rl.CallingCancelRL? ==> rl.why == n.why)
    && (rl.TakingCancelRL? <==> n.taking) && (rl.CallingCancelRL? <==> n.calling)
  }

  /** roundTrip has not decided what to return. */
  predicate Undecided(rt: RoundTrip) {
    !SentBoth(rt) || rt.Selecting? || rt.TakingCancel? || rt.CallingCancel? || rt.WriteError? || rt.MapCanceled?
    || rt.MapRequestError? || rt.MapBroken? || rt.AwaitingWriter?
  }

  predicate ToldIs(rt: RoundTrip, t: Told) {
    && (t.expected <==> Counted(rt))
    && (rt.TakingCancel? || rt.CallingCancel? ==> rt.why == t.why)
    && (rt.TakingCancel? <==> t.taking) && (rt.CallingCancel? <==> t.calling)
    && (rt.Selecting? || rt.TakingCancel? || rt.CallingCancel? ==> rt.watch == t.watch)
    && (!SentBoth(rt) ==> t.watch == Watch(false, true, true))
    && (rt.WriteError? ==> t.first == Some(rt.write))
    && (rt.MapCanceled? ==> t.first == rt.first)
    && (rt.MapRequestError? || rt.MapBroken? || rt.AwaitingWriter? ==> t.first == Some(rt.seen))
    && (Undecided(rt) <==> t.answer.None?)
    && (rt.TimedOut? ==> t.answer == Some(Failure(HeaderTimeout)))
    && (rt.Leaving? || rt.ClosingGone? || rt.Returned? ==> t.answer == Some(rt.out))
  }

  predicate Agrees(s: State, h: Story) {
    && FateIs(s.conn, h.fate) && EntryIs(s.req, s.rt, h.entry) && WrittenIs(s.sending, s.wl, h.written)
    && SeenIs(s.rl, s.closeErr, h.seen) && ToldIs(s.rt, h.told)
  }

  // ----- every step keeps it so -----

  predicate Starts(a: RtAction) { a.RtReplace? || a.RtExpect? || a.RtSendWrite? || a.RtSendReq? }

  predicate Cancels(a: RtAction) { a.RtPickCancel? || a.RtPickContext? || a.RtTakeCancel? || a.RtCallCancel? }

  predicate Recycles(a: FinAction) { a.FinClear? || a.FinPutSkip? || a.FinPutRecv? || a.FinPutTimer? }

  predicate CancelsBody(a: FinAction) { a.FinPickCancel? || a.FinPickContext? || a.FinTakeCancel? || a.FinCallCancel? }

  predicate Maps(a: OutAction) { a.OutMapCanceled? || a.OutMapRequestError? || a.OutMapBroken? }

  lemma EnvFate(s: State, h: Story, a: EnvAction)
    requires EnvEnabled(s, a) && FateIs(s.conn, h.fate) && EntryIs(s.req, s.rt, h.entry)
    requires CloseOnce(s.conn)
    ensures var t, k := EnvApply(s, a), TellEnv(h, a); FateIs(t.conn, k.fate)
  {
  }

  lemma RtFate(s: State, h: Story, a: RtAction)
    requires RtEnabled(s, a) && FateIs(s.conn, h.fate) && EntryIs(s.req, s.rt, h.entry) && ToldIs(s.rt, h.told)
    requires CloseOnce(s.conn)
    ensures var t, k := RtApply(s, a), TellRt(h, a); FateIs(t.conn, k.fate)
  {
  }

  lemma OutFate(s: State, h: Story, a: OutAction)
    requires OutEnabled(s, a) && FateIs(s.conn, h.fate)
    ensures var t, k := OutApply(s, a), TellOut(h, a); FateIs(t.conn, k.fate)
  {
  }

  lemma RlFate(s: State, h: Story, a: RlAction)
    requires RlEnabled(s, a) && FateIs(s.conn, h.fate) && SeenIs(s.rl, s.closeErr, h.seen) && ToldIs(s.rt, h.told)
    requires CloseOnce(s.conn) && OneRequest(s)
    ensures var t, k := RlApply(s, a), TellRl(h, a); FateIs(t.conn, k.fate)
  {
  }

  lemma FinFate(s: State, h: Story, a: FinAction)
    requires FinEnabled(s, a) && FateIs(s.conn, h.fate) && SeenIs(s.rl, s.closeErr, h.seen)
    requires CloseOnce(s.conn)
    ensures var t, k := FinApply(s, a), TellFin(h, a); FateIs(t.conn, k.fate)
  {
  }

  lemma WlFate(s: State, h: Story, a: WlAction)
    requires WlEnabled(s, a) && FateIs(s.conn, h.fate) && WrittenIs(s.sending, s.wl, h.written)
    requires CloseOnce(s.conn)
    ensures var t, k := WlApply(s, a), TellWl(h, a); FateIs(t.conn, k.fate)
  {
  }

  lemma EnvEntry(s: State, h: Story, a: EnvAction)
    requires EnvEnabled(s, a) && EntryIs(s.req, s.rt, h.entry)
    ensures var t, k := EnvApply(s, a), TellEnv(h, a); EntryIs(t.req, t.rt, k.entry)
  {
  }

  lemma StartEntry(s: State, h: Story, a: RtAction)
    requires Starts(a)
    requires RtEnabled(s, a) && EntryIs(s.req, s.rt, h.entry)
    requires OneRequest(s)
    ensures var t, k := RtApply(s, a), TellRt(h, a); EntryIs(t.req, t.rt, k.entry)
  {
  }

  lemma SelectEntry(s: State, h: Story, a: RtAction)
    requires !Starts(a)
    requires RtEnabled(s, a) && EntryIs(s.req, s.rt, h.entry)
    requires OneRequest(s)
    ensures var t, k := RtApply(s, a), TellRt(h, a); EntryIs(t.req, t.rt, k.entry)
  {
  }

  lemma RtEntry(s: State, h: Story, a: RtAction)
    requires RtEnabled(s, a) && EntryIs(s.req, s.rt, h.entry)
    requires OneRequest(s)
    ensures var t, k := RtApply(s, a), TellRt(h, a); EntryIs(t.req, t.rt, k.entry)
  {
    if Starts(a) {
      StartEntry(s, h, a);
    } else {
      SelectEntry(s, h, a);
    }
  }

  lemma OutEntry(s: State, h: Story, a: OutAction)
    requires OutEnabled(s, a) && EntryIs(s.req, s.rt, h.entry)
    ensures var t, k := OutApply(s, a), TellOut(h, a); EntryIs(t.req, t.rt, k.entry)
  {
  }

  lemma RlEntry(s: State, h: Story, a: RlAction)
    requires RlEnabled(s, a) && EntryIs(s.req, s.rt, h.entry)
    ensures var t, k := RlApply(s, a), TellRl(h, a); EntryIs(t.req, t.rt, k.entry)
  {
  }

  lemma FinEntry(s: State, h: Story, a: FinAction)
    requires FinEnabled(s, a) && EntryIs(s.req, s.rt, h.entry)
    ensures var t, k := FinApply(s, a), TellFin(h, a); EntryIs(t.req, t.rt, k.entry)
  {
  }

  lemma WlEntry(s: State, h: Story, a: WlAction)
    requires WlEnabled(s, a) && EntryIs(s.req, s.rt, h.entry)
    ensures var t, k := WlApply(s, a), TellWl(h, a); EntryIs(t.req, t.rt, k.entry)
  {
  }

  lemma EnvWritten(s: State, h: Story, a: EnvAction)
    requires EnvEnabled(s, a) && WrittenIs(s.sending, s.wl, h.written)
    ensures var t, k := EnvApply(s, a), TellEnv(h, a); WrittenIs(t.sending, t.wl, k.written)
  {
  }

  lemma RtWritten(s: State, h: Story, a: RtAction)
    requires RtEnabled(s, a) && WrittenIs(s.sending, s.wl, h.written)
    requires OneWriter(s.sending, s.wl)
    ensures var t, k := RtApply(s, a), TellRt(h, a); WrittenIs(t.sending, t.wl, k.written)
  {
  }

  lemma OutWritten(s: State, h: Story, a: OutAction)
    requires OutEnabled(s, a) && WrittenIs(s.sending, s.wl, h.written)
    ensures var t, k := OutApply(s, a), TellOut(h, a); WrittenIs(t.sending, t.wl, k.written)
  {
  }

  lemma RlWritten(s: State, h: Story, a: RlAction)
    requires RlEnabled(s, a) && WrittenIs(s.sending, s.wl, h.written)
    ensures var t, k := RlApply(s, a), TellRl(h, a); WrittenIs(t.sending, t.wl, k.written)
  {
  }

  lemma FinWritten(s: State, h: Story, a: FinAction)
    requires FinEnabled(s, a) && WrittenIs(s.sending, s.wl, h.written)
    ensures var t, k := FinApply(s, a), TellFin(h, a); WrittenIs(t.sending, t.wl, k.written)
  {
  }

  lemma WlWritten(s: State, h: Story, a: WlAction)
    requires WlEnabled(s, a) && WrittenIs(s.sending, s.wl, h.written)
    requires OneWriter(s.sending, s.wl)
    ensures var t, k := WlApply(s, a), TellWl(h, a); WrittenIs(t.sending, t.wl, k.written)
  {
  }

  lemma EnvSeen(s: State, h: Story, a: EnvAction)
    requires EnvEnabled(s, a) && SeenIs(s.rl, s.closeErr, h.seen)
    ensures var t, k := EnvApply(s, a), TellEnv(h, a); SeenIs(t.rl, t.closeErr, k.seen)
  {
  }

  lemma RtSeen(s: State, h: Story, a: RtAction)
    requires RtEnabled(s, a) && SeenIs(s.rl, s.closeErr, h.seen)
    ensures var t, k := RtApply(s, a), TellRt(h, a); SeenIs(t.rl, t.closeErr, k.seen)
  {
  }

  lemma OutSeen(s: State, h: Story, a: OutAction)
    requires OutEnabled(s, a) && SeenIs(s.rl, s.closeErr, h.seen)
    ensures var t, k := OutApply(s, a), TellOut(h, a); SeenIs(t.rl, t.closeErr, k.seen)
  {
  }

  lemma RlSeen(s: State, h: Story, a: RlAction)
    requires RlEnabled(s, a) && SeenIs(s.rl, s.closeErr, h.seen)
    requires ClosedWhere(s)
    ensures var t, k := RlApply(s, a), TellRl(h, a); SeenIs(t.rl, t.closeErr, k.seen)
  {
  }

  lemma PutSeen(s: State, h: Story, a: FinAction)
    requires Recycles(a)
    requires FinEnabled(s, a) && SeenIs(s.rl, s.closeErr, h.seen)
    requires EntryIs(s.req, s.rt, h.entry) && WrittenIs(s.sending, s.wl, h.written)
    requires ClosedWhere(s)
    ensures var t, k := FinApply(s, a), TellFin(h, a); SeenIs(t.rl, t.closeErr, k.seen)
  {
  }

  lemma CancelSeen(s: State, h: Story, a: FinAction)
    requires CancelsBody(a)
    requires FinEnabled(s, a) && SeenIs(s.rl, s.closeErr, h.seen)
    requires EntryIs(s.req, s.rt, h.entry) && WrittenIs(s.sending, s.wl, h.written)
    requires ClosedWhere(s)
    ensures var t, k := FinApply(s, a), TellFin(h, a); SeenIs(t.rl, t.closeErr, k.seen)
  {
  }

  lemma EndSeen(s: State, h: Story, a: FinAction)
    requires !Recycles(a) && !CancelsBody(a)
    requires FinEnabled(s, a) && SeenIs(s.rl, s.closeErr, h.seen)
    requires EntryIs(s.req, s.rt, h.entry) && WrittenIs(s.sending, s.wl, h.written)
    requires ClosedWhere(s)
    ensures var t, k := FinApply(s, a), TellFin(h, a); SeenIs(t.rl, t.closeErr, k.seen)
  {
  }

  lemma FinSeen(s: State, h: Story, a: FinAction)
    requires FinEnabled(s, a) && SeenIs(s.rl, s.closeErr, h.seen)
    requires EntryIs(s.req, s.rt, h.entry) && WrittenIs(s.sending, s.wl, h.written)
    requires ClosedWhere(s)
    ensures var t, k := FinApply(s, a), TellFin(h, a); SeenIs(t.rl, t.closeErr, k.seen)
  {
    if Recycles(a) {
      PutSeen(s, h, a);
    } else if CancelsBody(a) {
      CancelSeen(s, h, a);
    } else {
      EndSeen(s, h, a);
    }
  }

  lemma WlSeen(s: State, h: Story, a: WlAction)
    requires WlEnabled(s, a) && SeenIs(s.rl, s.closeErr, h.seen)
    ensures var t, k := WlApply(s, a), TellWl(h, a); SeenIs(t.rl, t.closeErr, k.seen)
  {
  }

  lemma EnvTold(s: State, h: Story, a: EnvAction)
    requires EnvEnabled(s, a) && ToldIs(s.rt, h.told)
    ensures var t, k := EnvApply(s, a), TellEnv(h, a); ToldIs(t.rt, k.told)
  {
  }

  lemma StartTold(s: State, h: Story, a: RtAction)
    requires Starts(a)
    requires RtEnabled(s, a) && ToldIs(s.rt, h.told)
    ensures var t, k := RtApply(s, a), TellRt(h, a); ToldIs(t.rt, k.told)
  {
  }

  lemma PickTold(s: State, h: Story, a: RtAction)
    requires a.RtPickCancel? || a.RtPickContext?
    requires RtEnabled(s, a) && ToldIs(s.rt, h.told) && EntryIs(s.req, s.rt, h.entry)
    ensures var t, k := RtApply(s, a), TellRt(h, a); ToldIs(t.rt, k.told)
  {
  }

  lemma TakeTold(s: State, h: Story, a: RtAction)
    requires a.RtTakeCancel? || a.RtCallCancel?
    requires RtEnabled(s, a) && ToldIs(s.rt, h.told) && EntryIs(s.req, s.rt, h.entry)
    ensures var t, k := RtApply(s, a), TellRt(h, a); ToldIs(t.rt, k.told)
  {
  }

  lemma CancelTold(s: State, h: Story, a: RtAction)
    requires Cancels(a)
    requires RtEnabled(s, a) && ToldIs(s.rt, h.told) && EntryIs(s.req, s.rt, h.entry)
    ensures var t, k := RtApply(s, a), TellRt(h, a); ToldIs(t.rt, k.told)
  {
    if a.RtPickCancel? || a.RtPickContext? {
      PickTold(s, h, a);
    } else {
      TakeTold(s, h, a);
    }
  }

  lemma ReceiveTold(s: State, h: Story, a: RtAction)
    requires a.RtRecvWriteErr? || a.RtRecvClosech?
    requires RtEnabled(s, a) && ToldIs(s.rt, h.told) && EntryIs(s.req, s.rt, h.entry)
    requires WrittenIs(s.sending, s.wl, h.written) && FateIs(s.conn, h.fate) && CloseOnce(s.conn)
    ensures var t, k := RtApply(s, a), TellRt(h, a); ToldIs(t.rt, k.told)
  {
  }

  lemma CloseTold(s: State, h: Story, a: RtAction)
    requires a.RtTimer? || a.RtCloseWriteError? || a.RtCloseTimeout?
    requires RtEnabled(s, a) && ToldIs(s.rt, h.told)
    ensures var t, k := RtApply(s, a), TellRt(h, a); ToldIs(t.rt, k.told)
  {
  }

  lemma RtTold(s: State, h: Story, a: RtAction)
    requires RtEnabled(s, a) && ToldIs(s.rt, h.told) && EntryIs(s.req, s.rt, h.entry)
    requires WrittenIs(s.sending, s.wl, h.written) && FateIs(s.conn, h.fate) && CloseOnce(s.conn)
    ensures var t, k := RtApply(s, a), TellRt(h, a); ToldIs(t.rt, k.told)
  {
    if Starts(a) {
      StartTold(s, h, a);
    } else if Cancels(a) {
      CancelTold(s, h, a);
    } else if a.RtRecvWriteErr? || a.RtRecvClosech? {
      ReceiveTold(s, h, a);
    } else {
      CloseTold(s, h, a);
    }
  }

  lemma MapTold(s: State, h: Story, a: OutAction)
    requires Maps(a)
    requires OutEnabled(s, a) && ToldIs(s.rt, h.told) && FateIs(s.conn, h.fate) && WrittenIs(s.sending, s.wl, h.written)
    requires ClosedWhere(s) && OneWriter(s.sending, s.wl)
    ensures var t, k := OutApply(s, a), TellOut(h, a); ToldIs(t.rt, k.told)
  {
  }

  lemma LeaveTold(s: State, h: Story, a: OutAction)
    requires !Maps(a)
    requires OutEnabled(s, a) && ToldIs(s.rt, h.told) && FateIs(s.conn, h.fate) && WrittenIs(s.sending, s.wl, h.written)
    requires ClosedWhere(s) && OneWriter(s.sending, s.wl)
    ensures var t, k := OutApply(s, a), TellOut(h, a); ToldIs(t.rt, k.told)
  {
  }

  lemma OutTold(s: State, h: Story, a: OutAction)
    requires OutEnabled(s, a) && ToldIs(s.rt, h.told) && FateIs(s.conn, h.fate) && WrittenIs(s.sending, s.wl, h.written)
    requires ClosedWhere(s) && OneWriter(s.sending, s.wl)
    ensures var t, k := OutApply(s, a), TellOut(h, a); ToldIs(t.rt, k.told)
  {
    if Maps(a) {
      MapTold(s, h, a);
    } else {
      LeaveTold(s, h, a);
    }
  }

  lemma RlTold(s: State, h: Story, a: RlAction)
    requires RlEnabled(s, a) && ToldIs(s.rt, h.told) && SeenIs(s.rl, s.closeErr, h.seen)
    requires ClosedWhere(s)
    ensures var t, k := RlApply(s, a), TellRl(h, a); ToldIs(t.rt, k.told)
  {
  }

  lemma FinTold(s: State, h: Story, a: FinAction)
    requires FinEnabled(s, a) && ToldIs(s.rt, h.told)
    ensures var t, k := FinApply(s, a), TellFin(h, a); ToldIs(t.rt, k.told)
  {
  }

  lemma WlTold(s: State, h: Story, a: WlAction)
    requires WlEnabled(s, a) && ToldIs(s.rt, h.told)
    ensures var t, k := WlApply(s, a), TellWl(h, a); ToldIs(t.rt, k.told)
  {
  }

  lemma StepIsTold(s: State, h: Story, a: Action)
    requires Inv(s) && Agrees(s, h) && Enabled(s, a)
    ensures Agrees(Apply(s, a), Tell(h, a))
  {
    match a
    case Env(e) => EnvFate(s, h, e); EnvEntry(s, h, e); EnvWritten(s, h, e); EnvSeen(s, h, e); EnvTold(s, h, e);
    case Rt(r) => RtFate(s, h, r); RtEntry(s, h, r); RtWritten(s, h, r); RtSeen(s, h, r); RtTold(s, h, r);
    case Out(o) => OutFate(s, h, o); OutEntry(s, h, o); OutWritten(s, h, o); OutSeen(s, h, o); OutTold(s, h, o);
    case Rl(r) => RlFate(s, h, r); RlEntry(s, h, r); RlWritten(s, h, r); RlSeen(s, h, r); RlTold(s, h, r);
    case Fin(f) => FinFate(s, h, f); FinEntry(s, h, f); FinWritten(s, h, f); FinSeen(s, h, f); FinTold(s, h, f);
    case Wl(w) => WlFate(s, h, w); WlEntry(s, h, w); WlWritten(s, h, w); WlSeen(s, h, w); WlTold(s, h, w);
    case Bd(_, _) =>
  }

  lemma {:induction false} RunIsTold(s: State, h: Story, actions: seq<Action>, t: State)
    requires Inv(s) && Agrees(s, h) && Run(s, actions, t)
    ensures Inv(t) && Agrees(t, StoryOf(h, actions))
    decreases |actions|
  {
    if actions != [] {
      Step(s, actions[0]);
      StepIsTold(s, h, actions[0]);
      RunIsTold(Apply(s, actions[0]), Tell(h, actions[0]), actions[1..], t);
    }
  }

  /** What roundTrip returns, and what the connection was closed with, is what the actions of the run tell. */
  lemma ReturnsWhatIsTold(s: State, actions: seq<Action>, t: State)
    requires Init(s, 2) && Run(s, actions, t)
    ensures var h := StoryOf(Begin(s), actions);
            && (t.rt.Returned? ==> h.told.answer == Some(t.rt.out))
            && t.conn.closed == h.fate.closed && t.conn.canceledErr == h.fate.canceled
            && t.sending.wire == h.written.bytes
  {
    InitInv(s);
    RunIsTold(s, Begin(s), actions, t);
  }

  // ----- in closed form: which action of the run decides the answer -----

  lemma {:induction false} SplitRun(s: State, actions: seq<Action>, t: State, j: nat) returns (m: State)
    requires Run(s, actions, t) && j <= |actions|
    ensures Run(s, actions[..j], m) && Run(m, actions[j..], t)
    decreases j
  {
    if j == 0 {
      m := s;
      assert actions[0..] == actions;
    } else {
      m := SplitRun(Apply(s, actions[0]), actions[1..], t, j - 1);
      assert actions[..j][1..] == actions[1..][..j - 1] && actions[1..][j - 1..] == actions[j..];
    }
  }

  lemma {:induction false} SplitStory(h: Story, actions: seq<Action>, j: nat)
    requires j <= |actions|
    ensures StoryOf(h, actions) == StoryOf(StoryOf(h, actions[..j]), actions[j..])
    decreases j
  {
    if j == 0 {
      assert actions[0..] == actions;
    } else {
      SplitStory(Tell(h, actions[0]), actions[1..], j - 1);
      assert actions[..j][1..] == actions[1..][..j - 1] && actions[1..][j - 1..] == actions[j..];
    }
  }

  /** A state of the run with its story, and the step that follows. */
  lemma At(s: State, actions: seq<Action>, t: State, j: nat) returns (m: State)
    requires Init(s, 2) && Run(s, actions, t) && j < |actions|
    ensures var h := StoryOf(Begin(s), actions[..j]);
            && Inv(m) && Agrees(m, h) && Enabled(m, actions[j])
            && Inv(Apply(m, actions[j])) && Agrees(Apply(m, actions[j]), Tell(h, actions[j]))
            && Run(Apply(m, actions[j]), actions[j + 1..], t)
            && StoryOf(Begin(s), actions) == StoryOf(Tell(h, actions[j]), actions[j + 1..])
  {
    m := SplitRun(s, actions, t, j);
    InitInv(s);
    RunIsTold(s, Begin(s), actions[..j], m);
    SplitStory(Begin(s), actions, j);
    assert actions[j..][0] == actions[j] && actions[j..][1..] == actions[j + 1..];
    Step(m, actions[j]);
    StepIsTold(m, StoryOf(Begin(s), actions[..j]), actions[j]);
  }

  lemma AnswerStays(s: State, h: Story, a: Action, out: Outcome)
    requires Agrees(s, h) && Enabled(s, a) && h.told.answer == Some(out)
    ensures Tell(h, a).told.answer == Some(out)
  {
  }

  lemma ReadStays(s: State, h: Story, a: Action, hasBody: bool)
    requires Agrees(s, h) && Enabled(s, a) && h.seen.read == Some(hasBody)
    ensures Tell(h, a).seen.read == Some(hasBody)
  {
  }

  /** Once the answer is decided the rest of the run does not change it; nor what was read. */
  lemma {:induction false} DecidedStays(s: State, h: Story, actions: seq<Action>, t: State)
    requires Inv(s) && Agrees(s, h) && Run(s, actions, t)
    ensures h.told.answer.Some? ==> StoryOf(h, actions).told.answer == h.told.answer
    ensures h.seen.read.Some? ==> StoryOf(h, actions).seen.read == h.seen.read
    decreases |actions|
  {
    if actions != [] {
      Step(s, actions[0]);
      StepIsTold(s, h, actions[0]);
      if h.told.answer.Some? {
        AnswerStays(s, h, actions[0], h.told.answer.value);
      }
      if h.seen.read.Some? {
        ReadStays(s, h, actions[0], h.seen.read.value);
      }
      DecidedStays(Apply(s, actions[0]), Tell(h, actions[0]), actions[1..], t);
    }
  }

  /** An answer that is due after step j is the one returned. */
  lemma DecidedAt(s: State, actions: seq<Action>, t: State, j: nat) returns (m: State)
    requires Init(s, 2) && Run(s, actions, t) && j < |actions|
    ensures var h := StoryOf(Begin(s), actions[..j]);
            && Inv(m) && Agrees(m, h) && Enabled(m, actions[j])
            && Inv(Apply(m, actions[j])) && Run(Apply(m, actions[j]), actions[j + 1..], t)
            && (Tell(h, actions[j]).told.answer.Some? && t.rt.Returned? ==>
                  Tell(h, actions[j]).told.answer == Some(t.rt.out))
  {
    m := At(s, actions, t, j);
    var k := Tell(StoryOf(Begin(s), actions[..j]), actions[j]);
    DecidedStays(Apply(m, actions[j]), k, actions[j + 1..], t);
    ReturnsWhatIsTold(s, actions, t);
  }

  /** What readLoop read before step j is what the story then has. */
  lemma ReadAt(s: State, actions: seq<Action>, t: State, i: nat, j: nat)
    requires Init(s, 2) && Run(s, actions, t) && i < j <= |actions|
    requires actions[i].Rl? && actions[i].rl.RlReadOk?
    ensures StoryOf(Begin(s), actions[..j]).seen.read == Some(actions[i].rl.hasBody)
  {
    var m := SplitRun(s, actions, t, j);
    var before := actions[..j];
    assert before[..i] == actions[..i];
    var n := At(s, before, m, i);
    DecidedStays(Apply(n, actions[i]), Tell(StoryOf(Begin(s), actions[..i]), actions[i]), before[i + 1..], m);
  }

  /** A response that was read and delivered is what roundTrip returns, with a body if and only if it has one. */
  lemma DeliveredIsReturned(s: State, actions: seq<Action>, t: State, i: nat, j: nat)
    requires Init(s, 2) && Run(s, actions, t) && t.rt.Returned?
    requires i < j < |actions| && actions[i].Rl? && actions[i].rl.RlReadOk? && actions[j] == Rl(RlDeliverResponse)
    ensures t.rt.out == Response(actions[i].rl.hasBody)
  {
    ReadAt(s, actions, t, i, j);
    var m := DecidedAt(s, actions, t, j);
  }

  lemma {:induction false} ReadBefore(h: Story, actions: seq<Action>) returns (i: nat)
    requires h.seen.read.None? && StoryOf(h, actions).seen.read.Some?
    ensures i < |actions| && actions[i].Rl? && actions[i].rl.RlReadOk?
    decreases |actions|
  {
    if Tell(h, actions[0]).seen.read.Some? {
      i := 0;
    } else {
      var k := ReadBefore(Tell(h, actions[0]), actions[1..]);
      i := k + 1;
    }
  }

  lemma {:induction false} DeliveredBefore(h: Story, actions: seq<Action>, hasBody: bool) returns (j: nat)
    requires h.told.answer != Some(Response(hasBody)) && StoryOf(h, actions).told.answer == Some(Response(hasBody))
    ensures j < |actions| && actions[j] == Rl(RlDeliverResponse)
    ensures StoryOf(h, actions[..j]).seen.read == Some(hasBody)
    decreases |actions|
  {
    if Tell(h, actions[0]).told.answer == Some(Response(hasBody)) {
      j := 0;
    } else {
      var k := DeliveredBefore(Tell(h, actions[0]), actions[1..], hasBody);
      j := k + 1;
      assert actions[..j][1..] == actions[1..][..k];
    }
  }

  /** And a response is returned only if one was read, and delivered after that. */
  lemma ReturnedWasDelivered(s: State, actions: seq<Action>, t: State, hasBody: bool) returns (i: nat, j: nat)
    requires Init(s, 2) && Run(s, actions, t) && t.rt == Returned(Response(hasBody))
    ensures i < j < |actions| && actions[j] == Rl(RlDeliverResponse)
    ensures actions[i].Rl? && actions[i].rl.RlReadOk? && actions[i].rl.hasBody == hasBody
  {
    ReturnsWhatIsTold(s, actions, t);
    j := DeliveredBefore(Begin(s), actions, hasBody);
    i := ReadBefore(Begin(s), actions[..j]);
    ReadAt(s, actions, t, i, j);
  }

  /** The response header timer decides for the timeout. */
  lemma TimerIsTimeout(s: State, actions: seq<Action>, t: State, j: nat)
    requires Init(s, 2) && Run(s, actions, t) && t.rt.Returned? && j < |actions| && actions[j] == Rt(RtTimer)
    ensures t.rt.out == Failure(HeaderTimeout)
  {
    var h := StoryOf(Begin(s), actions[..j]);
    assert Tell(h, actions[j]).told.answer == Some(Failure(HeaderTimeout));
    var m := DecidedAt(s, actions, t, j);
  }

  /** The actions by which a cancel reaches the connection. */
  predicate IsCancel(a: Action) {
    (a.Env? && a.env.RunCancel?) || a == Rt(RtCallCancel) || a == Fin(FinCallCancel)
  }

  /** If a cancel reached the connection, the story knows the error of the last one. */
  lemma {:induction false} LastCancel(h: Story, actions: seq<Action>)
    requires h.fate.canceled.Some? || exists i :: 0 <= i < |actions| && IsCancel(actions[i])
    ensures StoryOf(h, actions).fate.canceled.Some?
    decreases |actions|
  {
    if actions != [] {
      if !h.fate.canceled.Some? && !IsCancel(actions[0]) {
        var i :| 0 <= i < |actions| && IsCancel(actions[i]);
        assert actions[1..][i - 1] == actions[i];
      }
      LastCancel(Tell(h, actions[0]), actions[1..]);
    }
  }

  lemma ReachesFirst(m: State)
    requires Inv(m) && m.rt.MapCanceled?
    ensures m.rt.first.Some?
  {
  }

  /** An error that is mapped after a cancel has reached the connection becomes the last such cancel's own error. */
  lemma CancelWins(s: State, actions: seq<Action>, t: State, i: nat, j: nat)
    requires Init(s, 2) && Run(s, actions, t) && t.rt.Returned?
    requires i < j < |actions| && IsCancel(actions[i]) && actions[j] == Out(OutMapCanceled)
    ensures var why := StoryOf(Begin(s), actions[..j]).fate.canceled; why.Some? && t.rt.out == Failure(why.value)
  {
    assert actions[..j][i] == actions[i];
    LastCancel(Begin(s), actions[..j]);
    var m := DecidedAt(s, actions, t, j);
    ReachesFirst(m);
  }

  lemma WriterIsDone(m: State)
    requires Inv(m) && m.sending.writeLoopDone
    ensures m.wl.WriterDone?
  {
  }

  /** An outcome that waited for writeLoop says "nothing written" if and only if no byte was accepted. */
  lemma WaitedMeansCounted(s: State, actions: seq<Action>, t: State, j: nat)
    requires Init(s, 2) && Run(s, actions, t) && t.rt.Returned? && j < |actions| && actions[j] == Out(OutWriterDone)
    ensures t.rt.out.Failure?
    ensures t.rt.out.err.NothingWritten? <==> t.sending.wire == 0
    ensures t.rt.out.err.ConnBroken? <==> t.sending.wire > 0
  {
    var m := DecidedAt(s, actions, t, j);
    WriterIsDone(m);
    var n := Apply(m, actions[j]);
    assert n.sending == m.sending && n.wl == m.wl;
    NothingIsWrittenLater(n, actions[j + 1..], t);
    assert m.rt.AwaitingWriter? && m.sending.wire == StoryOf(Begin(s), actions[..j]).written.bytes;
  }

  // ----- what roundTrip's select can still take -----

  predicate SameCancel(r: Request, q: Request) { q.reqCancel == r.reqCancel && q.contextDone == r.contextDone }

  lemma RtKeepsCancel(s: State, a: RtAction)
    requires RtEnabled(s, a)
    ensures SameCancel(s.req, RtApply(s, a).req)
  {
  }

  lemma OutKeepsCancel(s: State, a: OutAction)
    requires OutEnabled(s, a)
    ensures SameCancel(s.req, OutApply(s, a).req)
  {
  }

  lemma RlKeepsCancel(s: State, a: RlAction)
    requires RlEnabled(s, a)
    ensures SameCancel(s.req, RlApply(s, a).req)
  {
  }

  lemma FinKeepsCancel(s: State, a: FinAction)
    requires FinEnabled(s, a)
    ensures SameCancel(s.req, FinApply(s, a).req)
  {
  }

  lemma WlKeepsCancel(s: State, a: WlAction)
    requires WlEnabled(s, a)
    ensures SameCancel(s.req, WlApply(s, a).req)
  {
  }

  lemma EnvCancels(s: State, a: EnvAction)
    requires EnvEnabled(s, a)
    ensures EnvApply(s, a).req.reqCancel <==> s.req.reqCancel || a == CloseReqCancel
    ensures EnvApply(s, a).req.contextDone <==> s.req.contextDone || a == EndContext
  {
  }

  lemma CanceledStep(s: State, a: Action)
    requires Enabled(s, a)
    ensures Apply(s, a).req.reqCancel <==> s.req.reqCancel || a == Env(CloseReqCancel)
    ensures Apply(s, a).req.contextDone <==> s.req.contextDone || a == Env(EndContext)
  {
    match a
    case Env(e) => EnvCancels(s, e);
    case Rt(r) => RtKeepsCancel(s, r);
    case Out(o) => OutKeepsCancel(s, o);
    case Rl(r) => RlKeepsCancel(s, r);
    case Fin(f) => FinKeepsCancel(s, f);
    case Wl(w) => WlKeepsCancel(s, w);
    case Bd(_, _) =>
  }

  lemma {:induction false} CanceledStays(s: State, actions: seq<Action>, t: State)
    requires Run(s, actions, t)
    ensures t.req.reqCancel <==> s.req.reqCancel || Env(CloseReqCancel) in actions
    ensures t.req.contextDone <==> s.req.contextDone || Env(EndContext) in actions
    decreases |actions|
  {
    if actions != [] {
      CanceledStep(s, actions[0]);
      CanceledStays(Apply(s, actions[0]), actions[1..], t);
      assert actions == [actions[0]] + actions[1..];
    }
  }

  lemma SelectIsTold(t: State, h: Story, code: nat)
    requires CloseOnce(t.conn) && FateIs(t.conn, h.fate) && ToldIs(t.rt, h.told) && t.rt.Selecting?
    ensures RtEnabled(t, RtRecvClosech) <==> h.fate.closed.Some?
    ensures RtEnabled(t, RtTimer) <==> h.told.watch.timer
    ensures RtEnabled(t, RtPickCancel) <==> h.told.watch.onCancel && t.req.reqCancel
    ensures RtEnabled(t, RtPickContext(code)) <==> h.told.watch.onContext && t.req.contextDone
  {
  }

  /** In its select roundTrip takes the close of the connection if it is closed, the timer if it was started by a
      successful write, and Cancel and Done if they have happened and were not yet taken. */
  lemma SelectsWhatHappened(s: State, actions: seq<Action>, t: State, code: nat)
    requires Init(s, 2) && Run(s, actions, t) && t.rt.Selecting?
    ensures var h := StoryOf(Begin(s), actions);
            && (RtEnabled(t, RtRecvClosech) <==> h.fate.closed.Some?)
            && (RtEnabled(t, RtTimer) <==> h.told.watch.timer)
            && (RtEnabled(t, RtPickCancel) <==>
                  h.told.watch.onCancel && (s.req.reqCancel || Env(CloseReqCancel) in actions))
            && (RtEnabled(t, RtPickContext(code)) <==>
                  h.told.watch.onContext && (s.req.contextDone || Env(EndContext) in actions))
  {
    InitInv(s);
    RunIsTold(s, Begin(s), actions, t);
    CanceledStays(s, actions, t);
    SelectIsTold(t, StoryOf(Begin(s), actions), code);
  }
}
