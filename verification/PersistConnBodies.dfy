/**
 * What the calls on a response body come to, and what readLoop hears of them and does with the
 * connection, read off the actions of a run.
 */
module PersistConnBodies {
  import opened Basics
  import opened PersistConn
  import opened PersistConnSafety

  /**
   * `failing`: the error a Read got from the body; `rerr`: the first that was noted; `shut`, `early`: Close was
   * called, and before the end of the body was known; `ran`: the argument fn was run with; `sent`: the values sent
   * on waitForBodyRead, of which readLoop has taken `heard`; `single`, `connEof`: the response was the last one for
   * the connection, the connection has reported its end.
   */
  datatype Story = Story(failing: map<nat, Err>, rerr: Option<Err>, shut: bool, early: bool,
                         ran: Option<Option<Err>>, sent: seq<bool>, heard: nat, single: bool, connEof: bool)

  const BEGIN := Story(map[], None, false, false, None, [], 0, false, false)

  function RunsFn(h: Story, arg: Option<Err>): Story { if h.ran.None? then h.(ran := Some(arg)) else h }

  function TellBody(h: Story, i: nat, a: BodyAction): Story {
    match a
    case BdReadDone(err, eof) =>
      h.(failing := if err.Some? then h.failing[i := err.value] else h.failing, connEof := h.connEof || eof)
    case BdReadFailed =>
      if i !in h.failing then h
      else RunsFn(h.(rerr := if h.rerr.None? then Some(h.failing[i]) else h.rerr), Some(h.failing[i]))
    case BdFnSend => h.(sent := h.sent + [h.ran == Some(Some(Eof))])
    case BdCloseStart => if h.shut then h else h.(shut := true, early := h.rerr != Some(Eof))
    case BdEarlySend => h.(sent := h.sent + [false])
    case BdCloseDone(err, eof) => RunsFn(h.(connEof := h.connEof || eof), err)
    case _ => h
  }

  function Tell(h: Story, a: Action): Story {
    match a
    case Bd(i, b) => TellBody(h, i, b)
    case Fin(FinRecvBody) => h.(heard := h.heard + 1)
    case Rl(RlPeek(peek)) => h.(connEof := h.connEof || peek == Some(Eof))
    case Rl(RlReadFailed(read, _)) => h.(connEof := h.connEof || read == Eof)
    case Rl(RlReadOk(_, keepAlive, eof)) => h.(connEof := h.connEof || eof, single := !keepAlive)
    case _ => h
  }

  function StoryOf(h: Story, actions: seq<Action>): Story
    decreases |actions|
  {
    if actions == [] then h else StoryOf(Tell(h, actions[0]), actions[1..])
  }

  // ----- the body is as the story has it -----

  predicate BodyIs(b: Body, h: Story) {
    && b.rerr == h.rerr && b.esClosed == h.shut
    && b.fnRuns == (if h.ran.Some? then 1 else 0) && b.earlyRuns == (if h.early then 1 else 0)
    && b.received == h.heard <= |h.sent| && b.waitBody == h.sent[h.heard..]
  }

  predicate CallIs(c: Call, i: nat, h: Story) {
    && (c.ReadFailed? ==> i in h.failing && h.failing[i] == c.readErr)
    && (c.FnSend? ==> h.ran == Some(c.fnErr))
    && (c.EofcWait? ==> h.ran == Some(Some(Eof)))
    && (i in h.failing ==> c.ReadFailed? || (h.rerr.Some? && h.ran.Some? && (c.FnSend? || c.EofcWait? || c.CallDone?)))
  }

  predicate CallsAre(b: Body, h: Story) {
    && (forall i {:trigger b.calls[i]} :: 0 <= i < |b.calls| ==> CallIs(b.calls[i], i, h))
    && (forall i :: i in h.failing ==> i < |b.calls|)
  }

  /** The last value readLoop took. */
  predicate HeardIs(rl: ReadLoop, h: Story) {
    && (rl.BodyClear? || rl.BodyPut? ==> 0 < h.heard <= |h.sent| && h.sent[h.heard - 1] == rl.eof)
    && (rl.SendingEofc? ==> 0 < h.heard <= |h.sent| && h.sent[h.heard - 1])
  }

  /** readLoop has a response and has not yet settled what becomes of the connection. */
  predicate Deciding(rl: ReadLoop) {
    || rl.GotResponse? || rl.NoBodyClear? || rl.NoBodyPut? || (rl.SendingResponse? && rl.hasBody)
    || rl.AwaitingBody? || rl.BodyClear? || rl.BodyPut?
  }

  predicate ReuseIs(s: State, h: Story) {
    && (s.sawEOF <==> h.connEof)
    && (BeforeReq(s.rl) || s.rl.Reading? ==> s.alive && !h.single)
    && (Deciding(s.rl) ==> (s.alive <==> !h.single))
  }

  predicate Agrees(s: State, h: Story) { BodyIs(s.body, h) && CallsAre(s.body, h) && HeardIs(s.rl, h) && ReuseIs(s, h) }

  predicate Begins(a: BodyAction) { a.BdReadStart? || a.BdReadDone? || a.BdCloseStart? || a.BdEofcClosed? }

  lemma BeginStep(b: Body, eofcClosed: bool, i: nat, a: BodyAction, h: Story)
    requires BodyEnabled(b, eofcClosed, i, a) && BodyCounters(b) && MuHeld(b) && BodyIs(b, h) && CallsAre(b, h)
    requires Begins(a)
    ensures BodyIs(BodyApply(b, i, a), TellBody(h, i, a))
  {
    assert CallIs(b.calls[i], i, h);
  }

  lemma EndStep(b: Body, eofcClosed: bool, i: nat, a: BodyAction, h: Story)
    requires BodyEnabled(b, eofcClosed, i, a) && BodyCounters(b) && MuHeld(b) && BodyIs(b, h) && CallsAre(b, h)
    requires !Begins(a)
    ensures BodyIs(BodyApply(b, i, a), TellBody(h, i, a))
  {
    assert CallIs(b.calls[i], i, h);
  }

  lemma BodyStep(b: Body, eofcClosed: bool, i: nat, a: BodyAction, h: Story)
    requires BodyEnabled(b, eofcClosed, i, a) && BodyCounters(b) && MuHeld(b) && BodyIs(b, h) && CallsAre(b, h)
    ensures BodyIs(BodyApply(b, i, a), TellBody(h, i, a))
  {
    if Begins(a) {
      BeginStep(b, eofcClosed, i, a, h);
    } else {
      EndStep(b, eofcClosed, i, a, h);
    }
  }

  lemma BeginCalls(b: Body, eofcClosed: bool, i: nat, a: BodyAction, h: Story)
    requires BodyEnabled(b, eofcClosed, i, a) && BodyCounters(b) && MuHeld(b) && BodyIs(b, h) && CallsAre(b, h)
    requires Begins(a)
    ensures CallsAre(BodyApply(b, i, a), TellBody(h, i, a))
  {
    assert CallIs(b.calls[i], i, h);
  }

  lemma EndCalls(b: Body, eofcClosed: bool, i: nat, a: BodyAction, h: Story)
    requires BodyEnabled(b, eofcClosed, i, a) && BodyCounters(b) && MuHeld(b) && BodyIs(b, h) && CallsAre(b, h)
    requires !Begins(a)
    ensures CallsAre(BodyApply(b, i, a), TellBody(h, i, a))
  {
    assert CallIs(b.calls[i], i, h);
  }

  lemma CallsStep(b: Body, eofcClosed: bool, i: nat, a: BodyAction, h: Story)
    requires BodyEnabled(b, eofcClosed, i, a) && BodyCounters(b) && MuHeld(b) && BodyIs(b, h) && CallsAre(b, h)
    ensures CallsAre(BodyApply(b, i, a), TellBody(h, i, a))
  {
    if Begins(a) {
      BeginCalls(b, eofcClosed, i, a, h);
    } else {
      EndCalls(b, eofcClosed, i, a, h);
    }
  }

  lemma EnvTold(s: State, h: Story, a: EnvAction)
    requires EnvEnabled(s, a) && Agrees(s, h)
    ensures Agrees(EnvApply(s, a), h)
  {
    var t := EnvApply(s, a);
    assert t.rl == s.rl && t.alive == s.alive && t.sawEOF == s.sawEOF;
    assert |s.body.calls| !in h.failing;
    forall i | 0 <= i < |t.body.calls| ensures CallIs(t.body.calls[i], i, h) {
      if i < |s.body.calls| {
        assert CallIs(s.body.calls[i], i, h);
      }
    }
  }

  lemma QuietTold(s: State, h: Story, t: State)
    requires Agrees(s, h) && t.body == s.body && t.rl == s.rl && t.alive == s.alive && t.sawEOF == s.sawEOF
    ensures Agrees(t, h)
  {
  }

  lemma RlTold(s: State, h: Story, a: RlAction)
    requires RlEnabled(s, a) && Agrees(s, h)
    ensures Agrees(RlApply(s, a), Tell(h, Rl(a)))
  {
    var t, k := RlApply(s, a), Tell(h, Rl(a));
    assert t.body == s.body && k == h.(single := k.single, connEof := k.connEof);
    forall i | 0 <= i < |t.body.calls| ensures CallIs(t.body.calls[i], i, k) {
      assert CallIs(s.body.calls[i], i, h);
    }
  }

  lemma FinTold(s: State, h: Story, a: FinAction)
    requires FinEnabled(s, a) && Agrees(s, h) && ClosedWhere(s) && MuHeld(s.body)
    ensures Agrees(FinApply(s, a), Tell(h, Fin(a)))
  {
    var t, k := FinApply(s, a), Tell(h, Fin(a));
    forall i | 0 <= i < |t.body.calls| ensures CallIs(t.body.calls[i], i, k) {
      assert CallIs(s.body.calls[i], i, h);
    }
  }

  lemma HeardStays(rl: ReadLoop, h: Story, k: Story)
    requires HeardIs(rl, h) && h.sent <= k.sent && k.heard == h.heard
    ensures HeardIs(rl, k)
  {
  }

  lemma BodyTellsMore(h: Story, i: nat, a: BodyAction)
    ensures var k := TellBody(h, i, a);
            && h.sent <= k.sent && k.heard == h.heard && k.single == h.single
            && k.connEof == (h.connEof || SeesConnEof(a))
  {
  }

  lemma BdTold(s: State, h: Story, i: nat, a: BodyAction)
    requires BodyEnabled(s.body, s.eofcClosed, i, a) && Agrees(s, h) && BodyCounters(s.body) && MuHeld(s.body)
    ensures Agrees(Apply(s, Bd(i, a)), Tell(h, Bd(i, a)))
  {
    BodyStep(s.body, s.eofcClosed, i, a, h);
    CallsStep(s.body, s.eofcClosed, i, a, h);
    BodyTellsMore(h, i, a);
    HeardStays(s.rl, h, TellBody(h, i, a));
  }

  lemma RtIsQuiet(s: State, a: RtAction)
    requires RtEnabled(s, a)
    ensures var t := RtApply(s, a); t.body == s.body && t.rl == s.rl && t.alive == s.alive && t.sawEOF == s.sawEOF
  {
  }

  lemma OutIsQuiet(s: State, a: OutAction)
    requires OutEnabled(s, a)
    ensures var t := OutApply(s, a); t.body == s.body && t.rl == s.rl && t.alive == s.alive && t.sawEOF == s.sawEOF
  {
  }

  lemma WlIsQuiet(s: State, a: WlAction)
    requires WlEnabled(s, a)
    ensures var t := WlApply(s, a); t.body == s.body && t.rl == s.rl && t.alive == s.alive && t.sawEOF == s.sawEOF
  {
  }

  lemma StepIsTold(s: State, h: Story, a: Action)
    requires Inv(s) && Agrees(s, h) && Enabled(s, a)
    ensures Agrees(Apply(s, a), Tell(h, a))
  {
    match a
    case Env(e) => EnvTold(s, h, e);
    case Rt(r) =>
      RtIsQuiet(s, r);
      QuietTold(s, h, RtApply(s, r));
    case Out(o) =>
      OutIsQuiet(s, o);
      QuietTold(s, h, OutApply(s, o));
    case Rl(r) => RlTold(s, h, r);
    case Fin(f) => FinTold(s, h, f);
    case Wl(w) =>
      WlIsQuiet(s, w);
      QuietTold(s, h, WlApply(s, w));
    case Bd(i, b) => BdTold(s, h, i, b);
  }

  lemma {:induction false} RunIsTold(s: State, h: Story, actions: seq<Action>, t: State)
    requires Inv(s) && Agrees(s, h) && Run(s, actions, t)
    ensures Agrees(t, StoryOf(h, actions))
    decreases |actions|
  {
    if actions != [] {
      Step(s, actions[0]);
      StepIsTold(s, h, actions[0]);
      RunIsTold(Apply(s, actions[0]), Tell(h, actions[0]), actions[1..], t);
    }
  }

  lemma Told(s: State, actions: seq<Action>, t: State)
    requires Init(s, 2) && Run(s, actions, t)
    ensures Agrees(t, StoryOf(BEGIN, actions))
  {
    InitInv(s);
    RunIsTold(s, BEGIN, actions, t);
  }

  // ----- in closed form -----

  /** Call i gets an error from the body it reads. */
  predicate FailsAt(a: Action, i: nat) { a.Bd? && a.call == i && a.bd.BdReadDone? && a.bd.err.Some? }

  lemma {:induction false} FailingStays(h: Story, actions: seq<Action>, i: nat)
    requires i in h.failing || exists j :: 0 <= j < |actions| && FailsAt(actions[j], i)
    ensures i in StoryOf(h, actions).failing
    decreases |actions|
  {
    if actions != [] {
      if i !in h.failing && !FailsAt(actions[0], i) {
        var j :| 0 <= j < |actions| && FailsAt(actions[j], i);
        assert actions[1..][j - 1] == actions[j];
      }
      FailingStays(Tell(h, actions[0]), actions[1..], i);
    }
  }

  /** A Read whose body failed does not return before fn was run, once, and the first such error noted. */
  lemma FailedReadEndsBody(s: State, actions: seq<Action>, t: State, i: nat, j: nat)
    requires Init(s, 2) && Run(s, actions, t) && j < |actions| && FailsAt(actions[j], i)
    requires i < |t.body.calls| && t.body.calls[i].CallDone?
    ensures t.body.fnRuns == 1 && t.body.rerr.Some? && t.body.rerr == StoryOf(BEGIN, actions).rerr
  {
    Told(s, actions, t);
    FailingStays(BEGIN, actions, i);
    assert CallIs(t.body.calls[i], i, StoryOf(BEGIN, actions));
  }

  /** What readLoop hears is what was sent, in order; it waits to release a reader only after a true. */
  lemma LoopHearsWhatWasSent(s: State, actions: seq<Action>, t: State)
    requires Init(s, 2) && Run(s, actions, t)
    ensures var h := StoryOf(BEGIN, actions);
            && t.body.received == h.heard <= |h.sent| && t.body.waitBody == h.sent[h.heard..]
            && (t.rl.BodyClear? || t.rl.BodyPut? ==> h.heard > 0 && t.rl.eof == h.sent[h.heard - 1])
            && (t.rl.SendingEofc? ==> h.heard > 0 && h.sent[h.heard - 1])
            && t.body.earlyRuns == (if h.early then 1 else 0)
  {
    Told(s, actions, t);
  }

  /** wroteRequest is asked exactly for a response after which the connection could be used again: its body, if any,
      is read to the end, it was not the last one, and the connection has not reported its end. */
  lemma WriterAskedIffReusable(s: State, actions: seq<Action>, t: State)
    requires Init(s, 2) && Run(s, actions, t) && (t.rl == NoBodyPut || t.rl.BodyPut?)
    ensures var h := StoryOf(BEGIN, actions);
            ConsultsWriter(t) <==>
              && !h.single && !h.connEof
              && (t.rl == NoBodyPut || (0 < h.heard <= |h.sent| && h.sent[h.heard - 1]))
  {
    Told(s, actions, t);
  }

  // ----- no read after the end -----

  predicate Ended(b: Body) { b.esClosed || b.rerr.Some? }

  /** Call i has not begun to read the body. */
  predicate NotReading(b: Body, i: nat) {
    i < |b.calls| ==> b.calls[i].ReadStart? || b.calls[i].CloseStart? || b.calls[i].EarlySend? || b.calls[i].BodyClose?
                      || b.calls[i].FnSend? || b.calls[i].EofcWait? || b.calls[i].CallDone?
  }

  lemma CallNotReading(b: Body, eofcClosed: bool, j: nat, a: BodyAction, i: nat)
    requires BodyEnabled(b, eofcClosed, j, a) && Ended(b) && NotReading(b, i)
    ensures Ended(BodyApply(b, j, a)) && NotReading(BodyApply(b, j, a), i) && (j == i ==> !a.BdReadDone?)
  {
  }

  lemma RlIsQuiet(s: State, a: RlAction)
    requires RlEnabled(s, a)
    ensures RlApply(s, a).body == s.body
  {
  }

  lemma FinNotReading(s: State, a: FinAction, i: nat)
    requires FinEnabled(s, a) && Ended(s.body) && NotReading(s.body, i)
    ensures Ended(FinApply(s, a).body) && NotReading(FinApply(s, a).body, i)
  {
  }

  lemma EnvNotReading(s: State, a: EnvAction, i: nat)
    requires EnvEnabled(s, a) && Ended(s.body) && NotReading(s.body, i)
    ensures Ended(EnvApply(s, a).body) && NotReading(EnvApply(s, a).body, i)
  {
  }

  lemma StepNotReading(s: State, a: Action, i: nat)
    requires Enabled(s, a) && Ended(s.body) && NotReading(s.body, i)
    ensures Ended(Apply(s, a).body) && NotReading(Apply(s, a).body, i)
    ensures !(a.Bd? && a.call == i && a.bd.BdReadDone?)
  {
    match a
    case Env(e) => EnvNotReading(s, e, i);
    case Rt(r) => RtIsQuiet(s, r);
    case Out(o) => OutIsQuiet(s, o);
    case Rl(r) => RlIsQuiet(s, r);
    case Fin(f) => FinNotReading(s, f, i);
    case Wl(w) => WlIsQuiet(s, w);
    case Bd(j, b) => CallNotReading(s.body, s.eofcClosed, j, b, i);
  }

  /** Once Close was called or an error noted, a call that has not begun to read the body never does. */
  lemma {:induction false} NoReadAfterEnd(s: State, actions: seq<Action>, t: State, i: nat)
    requires Run(s, actions, t) && Ended(s.body) && NotReading(s.body, i)
    ensures forall a :: a in actions ==> !(a.Bd? && a.call == i && a.bd.BdReadDone?)
    decreases |actions|
  {
    if actions != [] {
      StepNotReading(s, actions[0], i);
      NoReadAfterEnd(Apply(s, actions[0]), actions[1..], t, i);
      assert actions == [actions[0]] + actions[1..];
    }
  }
}
