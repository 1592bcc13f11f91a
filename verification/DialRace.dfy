/**
 * `getConn` of the non-HTTP round tripper: the race between the dial goroutine, the waiting
 * caller, the goroutine that inherits an abandoned dial, and the cancel function of the request.
 * `dialc` is unbuffered, `cancelc` holds one error, and no connection is ever taken from a pool.
 */
module DialRace {
  import opened Basics

  datatype Dial = Dialing | Offering(ok: bool) | DialEnded

  datatype Get =
    | Waiting             // the outer select
    | DialFailed          // received a failed dial: the inner select
    | Abandoning          // chose Cancel, Done or cancelc: at handlePendingDial()
    | Holding             // getConn returned the connection; roundTrip has not replaced the canceler
    | InUse               // roundTrip goes on with the connection
    | Refused             // roundTrip found the canceler gone, the connection is being closed
    | Failed              // getConn returned an error; at setReqCanceler(req, nil)
    | Over

  datatype Heir = NoHeir | Receiving | HeirHolds | HeirEnded

  datatype State = State(dial: Dial, get: Get, heir: Heir,
                         inTable: bool,        // reqCanceler holds an entry for the request
                         dialEntry: bool,      // ... and it is the one that sends on cancelc
                         firing: nat,          // cancel functions taken from the table, about to send
                         cancelc: nat,         // errors in cancelc, capacity 1
                         canceled: bool,       // req.Cancel is closed or the context has ended
                         dialed: bool, closed: nat, fired: nat)

  predicate Init(s: State) {
    s == State(Dialing, Waiting, NoHeir, true, true, 0, 0, s.canceled, false, 0, 0)
  }

  datatype Action =
    | DialReturns(ok: bool) | CancelCloses | TakeCanceler | SendCancel
    | ReceiveDial | PickCanceled | PickCancelc | HandOver | InnerReturns(drain: bool)
    | ReplaceCanceler | CloseRefused | ClearCanceler
    | HeirReceives | HeirCloses

  predicate Enabled(s: State, a: Action) {
    match a
    case DialReturns(_) => s.dial.Dialing?
    case CancelCloses => !s.canceled
    case TakeCanceler => s.inTable
    case SendCancel => s.firing > 0 && s.cancelc < 1
    case ReceiveDial => s.get.Waiting? && s.dial.Offering?
    case PickCanceled => s.get.Waiting? && s.canceled
    case PickCancelc => s.get.Waiting? && s.cancelc > 0
    case HandOver => s.get.Abandoning?
    case InnerReturns(drain) => s.get.DialFailed? && (drain ==> s.cancelc > 0)
    case ReplaceCanceler => s.get.Holding?
    case CloseRefused => s.get.Refused?
    case ClearCanceler => s.get.Failed?
    case HeirReceives => s.heir.Receiving? && s.dial.Offering?
    case HeirCloses => s.heir.HeirHolds?
  }

  function Apply(s: State, a: Action): State
    requires Enabled(s, a)
  {
    match a
    case DialReturns(ok) => s.(dial := Offering(ok), dialed := ok)
    case CancelCloses => s.(canceled := true)
    case TakeCanceler =>
      s.(inTable := false, firing := s.firing + (if s.dialEntry then 1 else 0),
         fired := s.fired + (if s.dialEntry then 1 else 0))
    case SendCancel => s.(firing := s.firing - 1, cancelc := s.cancelc + 1)
    case ReceiveDial => s.(dial := DialEnded, get := if s.dial.ok then Holding else DialFailed)
    case PickCanceled => s.(get := Abandoning)
    case PickCancelc => s.(cancelc := s.cancelc - 1, get := Abandoning)
    case HandOver => s.(heir := Receiving, get := Failed)
    case InnerReturns(drain) => s.(cancelc := if drain then s.cancelc - 1 else s.cancelc, get := Failed)
    case ReplaceCanceler => if s.inTable then s.(dialEntry := false, get := InUse) else s.(get := Refused)
    case CloseRefused => s.(closed := s.closed + 1, get := Over)
    case ClearCanceler => s.(inTable := false, get := Over)
    case HeirReceives => s.(dial := DialEnded, heir := if s.dial.ok then HeirHolds else HeirEnded)
    case HeirCloses => s.(closed := s.closed + 1, heir := HeirEnded)
  }

  predicate Run(s: State, actions: seq<Action>, t: State)
    decreases |actions|
  {
    if actions == [] then t == s
    else Enabled(s, actions[0]) && Run(Apply(s, actions[0]), actions[1..], t)
  }

  ghost predicate Reachable(t: State) { exists s, actions :: Init(s) && Run(s, actions, t) }

  /** In how many places the connection is: offered by the dial, held by someone, in use, or closed. */
  function Places(s: State): nat {
    (if s.dial == Offering(true) then 1 else 0)
    + (if s.get.Holding? || s.get.Refused? || s.get.InUse? then 1 else 0)
    + (if s.heir.HeirHolds? then 1 else 0)
    + s.closed
  }

  predicate Inv(s: State) {
    && Places(s) == (if s.dialed then 1 else 0)
    && (s.dial.Dialing? ==> !s.dialed)
    && (s.dial.Dialing? || s.dial.Offering? ==> s.get.Waiting? || s.get.Abandoning? || s.heir.Receiving?)
    && (s.get.Waiting? || s.get.Abandoning? ==> s.heir.NoHeir? && !s.dial.DialEnded?)
    && (s.heir.Receiving? ==> !s.dial.DialEnded? && (s.get.Failed? || s.get.Over?))
    && (s.heir.HeirHolds? || s.heir.HeirEnded? ==> s.get.Failed? || s.get.Over?)
    && (s.dialEntry || s.get.InUse?)
    && s.firing + s.cancelc <= s.fired <= 1
    && (s.inTable && s.dialEntry ==> s.fired == 0)
  }

  lemma Step(s: State, a: Action)
    requires Inv(s) && Enabled(s, a)
    ensures Inv(Apply(s, a))
  {
  }

  lemma {:induction false} RunKeepsInv(s: State, actions: seq<Action>, t: State)
    requires Inv(s) && Run(s, actions, t)
    ensures Inv(t)
    decreases |actions|
  {
    if actions != [] {
      Step(s, actions[0]);
      RunKeepsInv(Apply(s, actions[0]), actions[1..], t);
    }
  }

  /** Conservation: a dialed connection is in exactly one place, so it is never both in use and closed. */
  lemma ConnectionIsConserved(t: State)
    requires Reachable(t)
    ensures Places(t) == (if t.dialed then 1 else 0)
    ensures t.get.InUse? ==> t.closed == 0
  {
    var s, actions :| Init(s) && Run(s, actions, t);
    RunKeepsInv(s, actions, t);
  }

  /** The cancel function sends at most once, so its channel of capacity one never blocks it. */
  lemma CancelNeverBlocks(t: State)
    requires Reachable(t)
    ensures t.fired <= 1
    ensures t.firing > 0 ==> Enabled(t, SendCancel)
  {
    var s, actions :| Init(s) && Run(s, actions, t);
    RunKeepsInv(s, actions, t);
  }

  /** Waiting for something outside: the network to finish the dial, or a decision to cancel. */
  predicate External(a: Action) { a.DialReturns? || a.CancelCloses? || a.TakeCanceler? }

  /** No goroutine of the race can move on its own. */
  predicate Settled(s: State) {
    && !Enabled(s, ReceiveDial) && !Enabled(s, HeirReceives) && !Enabled(s, HandOver) && !Enabled(s, HeirCloses)
    && !Enabled(s, InnerReturns(false)) && !Enabled(s, ReplaceCanceler) && !Enabled(s, CloseRefused)
    && !Enabled(s, ClearCanceler)
  }

  lemma SettledInv(s: State)
    requires Inv(s) && Settled(s)
    ensures s.dial.Dialing? || s.dial.DialEnded?
    ensures s.dialed ==> (s.get.InUse? && s.closed == 0) || (s.get.Over? && s.closed == 1)
    ensures !s.dialed && s.dial.DialEnded? ==> s.get.Over?
  {
  }

  /**
   * Nothing leaks: when no goroutine can step, either the dial is still running or it has been
   * received, and then a dialed connection is in use by roundTrip or closed, one of the two.
   */
  lemma SettledMeansAccounted(t: State)
    requires Reachable(t)
    requires forall a :: Enabled(t, a) ==> External(a)
    ensures t.dial.Dialing? || t.dial.DialEnded?
    ensures t.dialed ==> (t.get.InUse? && t.closed == 0) || (t.get.Over? && t.closed == 1)
    ensures !t.dialed && t.dial.DialEnded? ==> t.get.Over?
  {
    var s, actions :| Init(s) && Run(s, actions, t);
    RunKeepsInv(s, actions, t);
    SettledInv(t);
  }

  function DialRank(d: Dial): nat { match d case Dialing => 2 case Offering(_) => 1 case DialEnded => 0 }

  function GetRank(g: Get): nat {
    match g
    case Waiting => 6
    case DialFailed => 3
    case Abandoning => 5
    case Holding => 3
    case Refused => 1
    case Failed => 1
    case InUse => 0
    case Over => 0
  }

  function HeirRank(h: Heir): nat {
    match h
    case NoHeir => 0
    case Receiving => 2
    case HeirHolds => 1
    case HeirEnded => 0
  }

  function Rank(s: State): nat {
    DialRank(s.dial) + GetRank(s.get) + HeirRank(s.heir) + (if s.inTable then 3 else 0) + 2 * s.firing + s.cancelc
    + (if s.canceled then 0 else 1)
  }

  lemma RankDrops(s: State, a: Action)
    requires Enabled(s, a)
    ensures Rank(Apply(s, a)) < Rank(s)
  {
  }

  /** Every run of the race ends: it has at most 12 steps. */
  lemma {:induction false} RunIsBounded(s: State, actions: seq<Action>, t: State)
    requires Run(s, actions, t)
    ensures |actions| + Rank(t) <= Rank(s)
    ensures Init(s) ==> |actions| <= 12
    decreases |actions|
  {
    if actions != [] {
      RankDrops(s, actions[0]);
      RunIsBounded(Apply(s, actions[0]), actions[1..], t);
    }
  }

  // ----- what the run decides -----

  /** A race told by its actions: how the dial ended, whether the dial or a cancel came first, whether the
      canceler was taken, whether roundTrip found it when it put in its own, and where the error of a cancel is. */
  datatype Story = Story(dial: Option<bool>, received: bool, gaveUp: bool, canceled: bool, taken: bool, cleared: bool,
                         found: Option<bool>, closes: nat, firing: int, queued: int)

  const BEGIN := Story(None, false, false, false, false, false, None, 0, 0, 0)

  function Tell(h: Story, a: Action): Story {
    match a
    case DialReturns(ok) => h.(dial := Some(ok))
    case CancelCloses => h.(canceled := true)
    case TakeCanceler => h.(taken := true, firing := h.firing + (if h.found.None? then 1 else 0))
    case SendCancel => h.(firing := h.firing - 1, queued := h.queued + 1)
    case InnerReturns(drain) => h.(queued := h.queued - (if drain then 1 else 0))
    case ReceiveDial => h.(received := true)
    case PickCanceled => h.(gaveUp := true)
    case PickCancelc => h.(gaveUp := true, queued := h.queued - 1)
    case ReplaceCanceler => h.(found := Some(!h.taken))
    case ClearCanceler => h.(cleared := true)
    case CloseRefused => h.(closes := h.closes + 1)
    case HeirCloses => h.(closes := h.closes + 1)
    case _ => h
  }

  function StoryOf(h: Story, actions: seq<Action>): Story
    decreases |actions|
  {
    if actions == [] then h else StoryOf(Tell(h, actions[0]), actions[1..])
  }

  predicate Agrees(s: State, h: Story, canceledBefore: bool) {
    && (s.dial.Dialing? <==> h.dial.None?) && (s.dial.Offering? ==> h.dial == Some(s.dial.ok))
    && (s.dialed <==> h.dial == Some(true))
    && (s.canceled <==> canceledBefore || h.canceled)
    && (s.inTable <==> !h.taken && !h.cleared)
    && s.firing == h.firing && s.cancelc == h.queued && (s.dialEntry <==> h.found != Some(true))
    && (s.firing > 0 || s.cancelc > 0 ==> h.taken)
    && (s.get.Waiting? ==> s.firing + s.cancelc == (if h.taken then 1 else 0))
    && (s.get.Over? ==> !s.inTable)
    && (h.gaveUp ==> s.canceled || h.taken)
    && (s.get.Waiting? <==> !h.received && !h.gaveUp) && !(h.received && h.gaveUp)
    && (h.cleared ==> s.get.Over?)
    && (h.received ==> h.dial.Some? && s.dial.DialEnded?)
    && (s.get.Holding? <==> h.received && h.dial == Some(true) && h.found.None?)
    && (s.get.InUse? <==> h.found == Some(true))
    && (s.get.Refused? ==> h.found == Some(false)) && (h.found == Some(false) ==> s.get.Refused? || s.get.Over?)
    && (h.found.Some? ==> h.received && h.dial == Some(true))
    && (h.found == Some(false) ==> h.taken)
    && (s.get.Abandoning? || s.heir.Receiving? || s.heir.HeirHolds? ==> h.gaveUp)
    && s.closed == h.closes && (h.closes > 0 ==> h.found == Some(false) || h.gaveUp)
  }

  lemma StepIsTold(s: State, h: Story, a: Action, canceledBefore: bool)
    requires Inv(s) && Agrees(s, h, canceledBefore) && Enabled(s, a)
    ensures Agrees(Apply(s, a), Tell(h, a), canceledBefore)
  {
  }

  lemma {:induction false} RunIsTold(s: State, h: Story, actions: seq<Action>, t: State, canceledBefore: bool)
    requires Inv(s) && Agrees(s, h, canceledBefore) && Run(s, actions, t)
    ensures Inv(t) && Agrees(t, StoryOf(h, actions), canceledBefore)
    decreases |actions|
  {
    if actions != [] {
      Step(s, actions[0]);
      StepIsTold(s, h, actions[0], canceledBefore);
      RunIsTold(Apply(s, actions[0]), Tell(h, actions[0]), actions[1..], t, canceledBefore);
    }
  }

  lemma {:induction false} Taken(h: Story, actions: seq<Action>)
    ensures StoryOf(h, actions).taken <==> h.taken || TakeCanceler in actions
    decreases |actions|
  {
    if actions != [] {
      Taken(Tell(h, actions[0]), actions[1..]);
      assert actions == [actions[0]] + actions[1..];
    }
  }

  lemma {:induction false} Canceled(h: Story, actions: seq<Action>)
    ensures StoryOf(h, actions).canceled <==> h.canceled || CancelCloses in actions
    decreases |actions|
  {
    if actions != [] {
      Canceled(Tell(h, actions[0]), actions[1..]);
      assert actions == [actions[0]] + actions[1..];
    }
  }

  lemma {:induction false} Found(h: Story, actions: seq<Action>)
    ensures StoryOf(h, actions).found.Some? <==> h.found.Some? || ReplaceCanceler in actions
    decreases |actions|
  {
    if actions != [] {
      Found(Tell(h, actions[0]), actions[1..]);
      assert actions == [actions[0]] + actions[1..];
    }
  }

  lemma {:induction false} Dialed(h: Story, actions: seq<Action>)
    ensures StoryOf(h, actions).dial.Some? <==>
            h.dial.Some? || DialReturns(true) in actions || DialReturns(false) in actions
    decreases |actions|
  {
    if actions != [] {
      Dialed(Tell(h, actions[0]), actions[1..]);
      assert actions == [actions[0]] + actions[1..];
    }
  }

  lemma {:induction false} GaveUp(h: Story, actions: seq<Action>)
    ensures StoryOf(h, actions).gaveUp <==> h.gaveUp || PickCanceled in actions || PickCancelc in actions
    decreases |actions|
  {
    if actions != [] {
      GaveUp(Tell(h, actions[0]), actions[1..]);
      assert actions == [actions[0]] + actions[1..];
    }
  }

  lemma {:induction false} NoSecondDial(s: State, h: Story, actions: seq<Action>, t: State, before: bool, ok: bool)
    requires Inv(s) && Agrees(s, h, before) && Run(s, actions, t) && h.dial.Some?
    ensures DialReturns(ok) !in actions
    decreases |actions|
  {
    if actions != [] {
      Step(s, actions[0]);
      StepIsTold(s, h, actions[0], before);
      NoSecondDial(Apply(s, actions[0]), Tell(h, actions[0]), actions[1..], t, before, ok);
    }
  }

  /** The dial returns once, so its only answer is the one in the story. */
  lemma {:induction false} DialReturnsOnce(s: State, h: Story, actions: seq<Action>, t: State, before: bool, ok: bool)
    requires Inv(s) && Agrees(s, h, before) && Run(s, actions, t)
    requires h.dial == Some(ok) || (h.dial.None? && DialReturns(ok) in actions)
    ensures StoryOf(h, actions).dial == Some(ok)
    decreases |actions|
  {
    if actions != [] {
      Step(s, actions[0]);
      StepIsTold(s, h, actions[0], before);
      if h.dial.None? && actions[0] == DialReturns(!ok) {
        NoSecondDial(Apply(s, actions[0]), Tell(h, actions[0]), actions[1..], t, before, ok);
        assert false;
      }
      DialReturnsOnce(Apply(s, actions[0]), Tell(h, actions[0]), actions[1..], t, before, ok);
    }
  }

  lemma Told(s: State, actions: seq<Action>, t: State)
    requires Init(s) && Run(s, actions, t)
    ensures Inv(t) && Agrees(t, StoryOf(BEGIN, actions), s.canceled)
  {
    RunIsTold(s, BEGIN, actions, t, s.canceled);
  }

  /** A dial that succeeds in a race that nobody cancels ends in use, and nothing is closed. */
  lemma UncanceledIsUsed(s: State, actions: seq<Action>, t: State)
    requires Init(s) && !s.canceled && Run(s, actions, t) && Settled(t)
    requires DialReturns(true) in actions && CancelCloses !in actions && TakeCanceler !in actions
    ensures t.get.InUse? && t.closed == 0
  {
    Told(s, actions, t);
    Taken(BEGIN, actions);
    Canceled(BEGIN, actions);
    DialReturnsOnce(s, BEGIN, actions, t, s.canceled, true);
    SettledInv(t);
  }

  lemma {:induction false} KeepsFound(h: Story, actions: seq<Action>)
    requires ReplaceCanceler !in actions
    ensures StoryOf(h, actions).found == h.found
    decreases |actions|
  {
    if actions != [] {
      KeepsFound(Tell(h, actions[0]), actions[1..]);
    }
  }

  lemma {:induction false} FoundAt(h: Story, actions: seq<Action>, j: nat)
    requires j < |actions| && actions[j] == ReplaceCanceler && ReplaceCanceler !in actions[j + 1..]
    ensures StoryOf(h, actions).found == Some(!h.taken && TakeCanceler !in actions[..j])
    decreases j
  {
    var k := Tell(h, actions[0]);
    if j == 0 {
      KeepsFound(k, actions[1..]);
    } else {
      assert actions[1..][j - 1] == actions[j] && actions[1..][j..] == actions[j + 1..];
      FoundAt(k, actions[1..], j - 1);
      assert actions[..j] == [actions[0]] + actions[1..][..j - 1];
    }
  }

  lemma {:induction false} ReplacesOnce(s: State, h: Story, actions: seq<Action>, t: State, before: bool)
    requires Inv(s) && Agrees(s, h, before) && Run(s, actions, t) && h.found.Some?
    ensures ReplaceCanceler !in actions
    decreases |actions|
  {
    if actions != [] {
      Step(s, actions[0]);
      StepIsTold(s, h, actions[0], before);
      ReplacesOnce(Apply(s, actions[0]), Tell(h, actions[0]), actions[1..], t, before);
    }
  }

  lemma {:induction false} LastReplace(s: State, h: Story, actions: seq<Action>, t: State, before: bool, j: nat)
    requires Inv(s) && Agrees(s, h, before) && Run(s, actions, t) && j < |actions| && actions[j] == ReplaceCanceler
    ensures ReplaceCanceler !in actions[j + 1..]
    decreases j
  {
    Step(s, actions[0]);
    StepIsTold(s, h, actions[0], before);
    if j == 0 {
      ReplacesOnce(Apply(s, actions[0]), Tell(h, actions[0]), actions[1..], t, before);
    } else {
      LastReplace(Apply(s, actions[0]), Tell(h, actions[0]), actions[1..], t, before, j - 1);
      assert actions[1..][j..] == actions[j + 1..];
    }
  }

  lemma FoundDecides(t: State, h: Story, before: bool)
    requires Inv(t) && Agrees(t, h, before) && h.found.Some?
    ensures t.get.InUse? <==> h.found.value
    ensures !h.found.value ==> t.get.Refused? || (t.get.Over? && t.closed == 1)
  {
  }

  lemma Decided(s: State, h: Story, actions: seq<Action>, t: State, before: bool, j: nat)
    requires Inv(s) && Agrees(s, h, before) && !h.taken && Run(s, actions, t)
    requires j < |actions| && actions[j] == ReplaceCanceler
    ensures t.get.InUse? <==> TakeCanceler !in actions[..j]
    ensures !t.get.InUse? ==> t.get.Refused? || (t.get.Over? && t.closed == 1)
  {
    RunIsTold(s, h, actions, t, before);
    LastReplace(s, h, actions, t, before, j);
    FoundAt(h, actions, j);
    FoundDecides(t, StoryOf(h, actions), before);
  }

  /** roundTrip goes on with the connection if and only if nobody took the canceler before it put in its own. */
  lemma UsedIffNotTakenBefore(s: State, actions: seq<Action>, t: State, j: nat)
    requires Init(s) && Run(s, actions, t) && j < |actions| && actions[j] == ReplaceCanceler
    ensures t.get.InUse? <==> TakeCanceler !in actions[..j]
    ensures !t.get.InUse? ==> t.get.Refused? || (t.get.Over? && t.closed == 1)
  {
    Decided(s, BEGIN, actions, t, s.canceled, j);
  }

  /** And it never does without having put in its own. */
  lemma NotUsedWithoutReplace(s: State, actions: seq<Action>, t: State)
    requires Init(s) && Run(s, actions, t) && ReplaceCanceler !in actions
    ensures !t.get.InUse? && !t.get.Refused?
  {
    Told(s, actions, t);
    Found(BEGIN, actions);
  }

  /** A caller that gives up, or whose dial fails, gets no connection; one that was dialed all the same is closed. */
  lemma GivenUpIsClosed(s: State, actions: seq<Action>, t: State)
    requires Init(s) && Run(s, actions, t) && Settled(t) && t.dial.DialEnded?
    requires PickCanceled in actions || PickCancelc in actions || DialReturns(false) in actions
    ensures t.get.Over? && t.closed == (if DialReturns(true) in actions then 1 else 0)
  {
    Told(s, actions, t);
    Dialed(BEGIN, actions);
    GaveUp(BEGIN, actions);
    SettledInv(t);
    if DialReturns(true) in actions {
      DialReturnsOnce(s, BEGIN, actions, t, s.canceled, true);
    }
    if DialReturns(false) in actions {
      DialReturnsOnce(s, BEGIN, actions, t, s.canceled, false);
    }
  }

  lemma TakenMovesOn(t: State, h: Story, before: bool)
    requires Agrees(t, h, before) && h.taken && !Enabled(t, SendCancel) && !Enabled(t, PickCancelc)
    ensures !t.get.Waiting?
  {
  }

  /** A request whose canceler was taken does not go on waiting: when no goroutine can step, getConn has moved on. */
  lemma CanceledDoesNotWait(s: State, actions: seq<Action>, t: State)
    requires Init(s) && Run(s, actions, t) && TakeCanceler in actions
    requires forall a :: Enabled(t, a) ==> External(a)
    ensures !t.get.Waiting?
  {
    Told(s, actions, t);
    Taken(BEGIN, actions);
    TakenMovesOn(t, StoryOf(BEGIN, actions), s.canceled);
  }

  /** Nor does one whose Cancel or Done is closed. */
  lemma ClosedDoesNotWait(s: State, actions: seq<Action>, t: State)
    requires Init(s) && Run(s, actions, t) && (s.canceled || CancelCloses in actions)
    requires forall a :: Enabled(t, a) ==> External(a)
    ensures !t.get.Waiting?
  {
    Told(s, actions, t);
    Canceled(BEGIN, actions);
    assert !Enabled(t, PickCanceled);
  }

  /** No canceler is left behind by a request that got no connection. */
  lemma NoCancelerLeft(s: State, actions: seq<Action>, t: State)
    requires Init(s) && Run(s, actions, t) && t.get.Over?
    ensures !t.inTable
  {
    Told(s, actions, t);
  }
}
