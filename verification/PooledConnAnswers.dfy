/** No request on a pooled connection is lost, and neither is the connection. */
module PooledConnAnswers {
  import opened Basics
  import opened PooledConn
  import opened PooledConnTheorems

  // ----- every request is somewhere -----

  /** readLoop has the request of user u in hand: it has taken it and not yet sent the reply. */
  predicate InHand(s: State, u: nat) {
    s.loop.cur == u && (Serving(s) || Doubled(s) || s.loop.pc == Reply)
  }

  /** A user waits for its answer if and only if its request is queued, in hand, or answered in its channel. */
  predicate Accounted(s: State) {
    && (forall u :: 0 <= u < |s.users| ==>
          (s.users[u].pc == Await <==> u in s.reqch || InHand(s, u) || s.users[u].ch))
    && (s.loop.pc == Read || s.loop.pc == PutEmpty ==> s.loop.last.None?)
  }

  /** ... and in one of these places only. */
  predicate InOnePlace(s: State, u: nat)
    requires u < |s.users|
  {
    && !(u in s.reqch && InHand(s, u)) && !(u in s.reqch && s.users[u].ch) && !(InHand(s, u) && s.users[u].ch)
    && forall i, j :: 0 <= i < j < |s.reqch| && s.reqch[i] == u ==> s.reqch[j] != u
  }

  lemma UserAccounted(s: State, u: nat, a: UserAct)
    requires Indexes(s) && Queued(s) && Accounted(s) && u < |s.users| && UserEnabled(s, u, a)
    ensures Accounted(UserApply(s, u, a))
  {
    var t := UserApply(s, u, a);
    assert forall v :: 0 <= v < |s.users| && v != u ==> t.users[v] == s.users[v];
    assert forall v :: v in t.reqch <==> v in s.reqch || (a.Queue? && v == u);
    assert t.loop == s.loop;
  }

  lemma BodyAccounted(s: State, u: nat, a: BodyAct)
    requires Indexes(s) && HooksWaited(s) && Accounted(s) && u < |s.users| && BodyEnabled(s, u, a)
    ensures Accounted(BodyApply(s, u, a))
  {
    var t := BodyApply(s, u, a);
    assert forall v :: 0 <= v < |s.users| && v != u ==> t.users[v] == s.users[v];
    assert t.users[u].ch == s.users[u].ch && Reading(s.users[u]) && Reading(t.users[u]);
    assert t.reqch == s.reqch && t.loop.cur == s.loop.cur;
    assert forall v :: InHand(t, v) <==> InHand(s, v);
  }

  lemma LoopAccounted(s: State, a: LoopAct)
    requires Indexes(s) && Accounted(s) && LoopEnabled(s, a)
    ensures Accounted(LoopApply(s, a))
  {
    var t := LoopApply(s, a);
    assert forall v :: 0 <= v < |s.users| ==> t.users[v].pc == s.users[v].pc && t.users[v].ch == s.users[v].ch;
    if a.TakeRequest? {
      assert s.reqch == [s.reqch[0]] + t.reqch;
      assert forall v :: v in s.reqch <==> v == s.reqch[0] || v in t.reqch;
    }
  }

  lemma ReplyAccounted(s: State, a: ReplyAct)
    requires Indexes(s) && Accounted(s) && ReplyEnabled(s, a)
    ensures Accounted(ReplyApply(s, a))
  {
    var t := ReplyApply(s, a);
    assert forall v :: 0 <= v < |s.users| && v != s.loop.cur ==> t.users[v] == s.users[v];
    assert t.users[s.loop.cur].pc == s.users[s.loop.cur].pc && t.reqch == s.reqch;
  }

  lemma PoolAccounted(s: State, a: PoolAct)
    requires Indexes(s) && Accounted(s) && PoolEnabled(s, a)
    ensures Accounted(PoolApply(s, a))
  {
  }

  lemma StepAccounted(s: State, a: Action)
    requires Inv(s) && Accounted(s) && Enabled(s, a)
    ensures Accounted(Apply(s, a))
  {
    match a
    case U(u, b) => UserAccounted(s, u, b);
    case B(u, b) => BodyAccounted(s, u, b);
    case L(b) => LoopAccounted(s, b);
    case R(b) => ReplyAccounted(s, b);
    case P(b) => PoolAccounted(s, b);
  }

  lemma {:induction false} RunAccounted(s: State, run: seq<Action>)
    requires Inv(s) && Accounted(s) && IsRun(s, run)
    ensures Accounted(End(s, run))
    decreases |run|
  {
    if run != [] {
      Step(s, run[0]);
      StepAccounted(s, run[0]);
      RunAccounted(Apply(s, run[0]), run[1..]);
    }
  }

  /** No request is lost: who waits has its request queued, in readLoop's hand or answered; nobody else has a reply. */
  lemma WaitersAreAccounted(run: seq<Action>, u: nat)
    requires IsRun(INIT, run) && u < |End(INIT, run).users|
    ensures var s := End(INIT, run); s.users[u].pc == Await <==> u in s.reqch || InHand(s, u) || s.users[u].ch
  {
    RunAccounted(INIT, run);
  }

  lemma OnePlace(s: State, u: nat)
    requires AtMostOne(s) && !Doubled(s) && Queued(s) && u < |s.users|
    ensures InOnePlace(s, u)
  {
    assert |s.reqch| <= 1 && (Serving(s) ==> s.reqch == []);
  }

  /** While readLoop serves, a request is in one place only. */
  lemma WaitersAreInOnePlace(run: seq<Action>, u: nat)
    requires IsRun(INIT, run) && u < |End(INIT, run).users| && !Doubled(End(INIT, run))
    ensures InOnePlace(End(INIT, run), u)
  {
    RunKeepsInv(INIT, run);
    OnePlace(End(INIT, run), u);
  }

  // ----- the connection is not lost -----

  /** It is idle, or somebody can still put it back. */
  predicate SomeRight(s: State) {
    s.conn.idle > 0 || s.reqch != [] || Serving(s) || BodyOpen(s) || LastWrites(s)
  }

  /** The reader of the open body has fn still to run. */
  predicate BodyHasHook(s: State) {
    BodyOpen(s) ==> s.users[s.loop.cur].hook && s.users[s.loop.cur].pc != RdClear && s.users[s.loop.cur].pc != ClClear
  }

  predicate Over(s: State) { s.conn.broken || Doubled(s) || !s.loop.alive }

  predicate Kept(s: State) { Over(s) || (SomeRight(s) && BodyHasHook(s) && s.loop.pc != Exit) }

  lemma QueueKeeps(s: State, u: nat, a: UserAct)
    requires s.loop.cur < |s.users| && NewestOwns(s) && Kept(s) && u < |s.users| && UserEnabled(s, u, a)
    requires a.Queue?
    ensures Kept(UserApply(s, u, a))
  {
    assert UserApply(s, u, a).reqch != [];
    assert BodyOpen(UserApply(s, u, a)) == BodyOpen(s);
  }

  lemma RequestKeeps(s: State, u: nat, a: UserAct)
    requires s.loop.cur < |s.users| && NewestOwns(s) && Kept(s) && u < |s.users| && UserEnabled(s, u, a)
    requires !a.Queue?
    ensures Kept(UserApply(s, u, a))
  {
    var t := UserApply(s, u, a);
    if !Over(t) {
      assert t.loop == s.loop && t.reqch == s.reqch && BodyOpen(t) == BodyOpen(s);
      assert LastWrites(t) == LastWrites(s);
    }
  }

  lemma UserKeeps(s: State, u: nat, a: UserAct)
    requires s.loop.cur < |s.users| && NewestOwns(s) && Kept(s) && u < |s.users| && UserEnabled(s, u, a)
    ensures Kept(UserApply(s, u, a))
  {
    if a.Queue? {
      QueueKeeps(s, u, a);
    } else {
      RequestKeeps(s, u, a);
    }
  }

  lemma BodyKeeps(s: State, u: nat, a: BodyAct)
    requires s.loop.cur < |s.users| && Kept(s) && u < |s.users| && BodyEnabled(s, u, a)
    requires InFn(s.users[u]) ==> s.loop.pc == WaitBody && s.loop.cur == u
    ensures Kept(BodyApply(s, u, a))
  {
    var t := BodyApply(s, u, a);
    if !Over(t) {
      assert LastWrites(t) == LastWrites(s) && t.reqch == s.reqch;
      if a.Put? {
        assert t.conn.idle > 0;
      } else {
        assert BodyOpen(t) == BodyOpen(s);
      }
    }
  }

  lemma LoopKeeps(s: State, a: LoopAct)
    requires Indexes(s) && Kept(s) && LoopEnabled(s, a)
    ensures Kept(LoopApply(s, a))
  {
    var t := LoopApply(s, a);
    if !Over(t) {
      assert LastWrites(t) == LastWrites(s);
    }
  }

  lemma ReplyKeeps(s: State, a: ReplyAct)
    requires Indexes(s) && HooksWaited(s) && Queued(s) && Kept(s) && ReplyEnabled(s, a)
    ensures Kept(ReplyApply(s, a))
  {
    var t := ReplyApply(s, a);
    if !Over(t) {
      assert LastWrites(t) == LastWrites(s) && t.reqch == s.reqch;
    }
  }

  lemma PoolKeeps(s: State, a: PoolAct)
    requires Indexes(s) && Kept(s) && PoolEnabled(s, a)
    ensures Kept(PoolApply(s, a))
  {
  }

  /** The actions that break the connection. */
  predicate Breaks(s: State, a: Action) {
    || (a.U? && a.uact == Written(false))
    || (a.B? && a.bact == BodyAct.Put(false))
    || (a == L(Peeked) && forall u :: 0 <= u < |s.users| ==> !Pending(s.users[u]))
    || a == L(PutLast(false))
    || a == R(ReadResponse(ReadFails)) || a == R(PutIdle(false))
    || a == P(Break) || a == P(CloseIdle)
  }

  ghost predicate SomeBreaks(s: State, run: seq<Action>)
    requires IsRun(s, run)
    decreases |run|
  {
    run != [] && (Breaks(s, run[0]) || SomeBreaks(Apply(s, run[0]), run[1..]))
  }

  lemma UserBreaks(s: State, u: nat, a: UserAct)
    requires u < |s.users| && UserEnabled(s, u, a)
    ensures UserApply(s, u, a).conn.broken <==> s.conn.broken || Breaks(s, U(u, a))
  {
  }

  lemma BodyBreaks(s: State, u: nat, a: BodyAct)
    requires u < |s.users| && BodyEnabled(s, u, a)
    ensures BodyApply(s, u, a).conn.broken <==> s.conn.broken || Breaks(s, B(u, a))
  {
  }

  lemma LoopBreaks(s: State, a: LoopAct)
    requires s.conn.expected == PendingIn(s.users) && LoopEnabled(s, a)
    ensures LoopApply(s, a).conn.broken <==> s.conn.broken || Breaks(s, L(a))
  {
    NonePending(s.users);
  }

  lemma ReplyBreaks(s: State, a: ReplyAct)
    requires ReplyEnabled(s, a)
    ensures ReplyApply(s, a).conn.broken <==> s.conn.broken || Breaks(s, R(a))
  {
  }

  lemma BrokenStep(s: State, a: Action)
    requires s.conn.expected == PendingIn(s.users) && Enabled(s, a)
    ensures Apply(s, a).conn.broken <==> s.conn.broken || Breaks(s, a)
  {
    match a
    case U(u, b) => UserBreaks(s, u, b);
    case B(u, b) => BodyBreaks(s, u, b);
    case L(b) => LoopBreaks(s, b);
    case R(b) => ReplyBreaks(s, b);
    case P(_) =>
  }

  /** The connection is broken if and only if one of these actions was taken. */
  lemma {:induction false} BrokenIffBroken(s: State, run: seq<Action>)
    requires Inv(s) && IsRun(s, run)
    ensures End(s, run).conn.broken <==> s.conn.broken || SomeBreaks(s, run)
    decreases |run|
  {
    if run != [] {
      Step(s, run[0]);
      BrokenStep(s, run[0]);
      BrokenIffBroken(Apply(s, run[0]), run[1..]);
    }
  }

  /** A broken connection gets no new user, and is not put back. */
  lemma {:induction false} BrokenIsRetired(s: State, run: seq<Action>)
    requires IsRun(s, run) && s.conn.broken
    ensures End(s, run).conn.broken && |End(s, run).users| == |s.users|
    ensures End(s, run).conn.puts == s.conn.puts && End(s, run).conn.idle <= s.conn.idle
    decreases |run|
  {
    if run != [] {
      BrokenIsRetired(Apply(s, run[0]), run[1..]);
    }
  }

  /** What stops readLoop short of a broken connection: a response after which it is not to be used again. */
  predicate AliveUnlessLast(s: State, last: bool) { s.loop.alive || s.conn.broken || last }

  lemma AliveStep(s: State, a: Action, last: bool)
    requires AliveUnlessLast(s, last) && Enabled(s, a)
    ensures AliveUnlessLast(Apply(s, a), last || a == R(ReadResponse(LastOne)))
  {
  }

  lemma KeptStep(s: State, a: Action)
    requires Inv(s) && Kept(s) && Enabled(s, a)
    ensures Kept(Apply(s, a))
  {
    match a
    case U(u, b) => UserKeeps(s, u, b);
    case B(u, b) => BodyKeeps(s, u, b);
    case L(b) => LoopKeeps(s, b);
    case R(b) => ReplyKeeps(s, b);
    case P(b) => PoolKeeps(s, b);
  }

  lemma InTail(run: seq<Action>, a: Action)
    requires run != []
    ensures a in run <==> a == run[0] || a in run[1..]
  {
    assert run == [run[0]] + run[1..];
  }

  lemma {:induction false} KeptRun(s: State, run: seq<Action>, last: bool)
    requires Inv(s) && Kept(s) && AliveUnlessLast(s, last) && IsRun(s, run)
    ensures Inv(End(s, run)) && Kept(End(s, run))
    ensures AliveUnlessLast(End(s, run), last || R(ReadResponse(LastOne)) in run)
    decreases |run|
  {
    if run != [] {
      Step(s, run[0]);
      KeptStep(s, run[0]);
      AliveStep(s, run[0], last);
      InTail(run, R(ReadResponse(LastOne)));
      KeptRun(Apply(s, run[0]), run[1..], last || run[0] == R(ReadResponse(LastOne)));
    }
  }

  /** A connection that nothing broke, that no response ended and whose fn no readLoop ran again is never lost: it
      is idle once and unused, or not idle and one request has the right to put it back. */
  lemma ConnectionIsNotLost(run: seq<Action>)
    requires IsRun(INIT, run) && !SomeBreaks(INIT, run) && R(ReadResponse(LastOne)) !in run && !Doubled(End(INIT, run))
    ensures Tokens(End(INIT, run)) == 1 && BodyHasHook(End(INIT, run)) && End(INIT, run).loop.pc != Exit
  {
    KeptRun(INIT, run, false);
    BrokenIffBroken(INIT, run);
  }

  // ----- a closed body has run its fn -----

  /** A body that is shut belongs to a reader, who has run fn or is running it, unless the inner Close failed. */
  predicate ShutMeansRun(s: State) {
    forall u :: 0 <= u < |s.users| && s.users[u].shut ==>
      Reading(s.users[u]) && (s.users[u].pc == Reader ==> !s.users[u].hook)
  }

  lemma UserShut(s: State, u: nat, a: UserAct)
    requires ShutMeansRun(s) && u < |s.users| && UserEnabled(s, u, a)
    ensures ShutMeansRun(UserApply(s, u, a))
  {
  }

  lemma BodyShut(s: State, u: nat, a: BodyAct)
    requires ShutMeansRun(s) && u < |s.users| && BodyEnabled(s, u, a) && a != CloseBody(false)
    ensures ShutMeansRun(BodyApply(s, u, a))
  {
  }

  lemma LoopShut(s: State, a: LoopAct)
    requires ShutMeansRun(s) && HooksWaited(s) && LastIsRead(s) && LoopEnabled(s, a)
    ensures ShutMeansRun(LoopApply(s, a))
  {
  }

  lemma ReplyShut(s: State, a: ReplyAct)
    requires ShutMeansRun(s) && Queued(s) && ReplyEnabled(s, a)
    ensures ShutMeansRun(ReplyApply(s, a))
  {
  }

  lemma ShutStep(s: State, a: Action)
    requires Inv(s) && ShutMeansRun(s) && Enabled(s, a) && !(a.B? && a.bact == CloseBody(false))
    ensures ShutMeansRun(Apply(s, a))
  {
    match a
    case U(u, b) => UserShut(s, u, b);
    case B(u, b) => BodyShut(s, u, b);
    case L(b) => LoopShut(s, b);
    case R(b) => ReplyShut(s, b);
    case P(_) =>
  }

  /** On a run in which no inner Close fails, a reader whose body is shut has run fn, or has none. */
  lemma {:induction false} ClosedBodyRanFn(s: State, run: seq<Action>)
    requires Inv(s) && ShutMeansRun(s) && IsRun(s, run)
    requires forall a :: a in run ==> !(a.B? && a.bact == CloseBody(false))
    ensures ShutMeansRun(End(s, run))
    decreases |run|
  {
    if run != [] {
      assert run[0] in run;
      Step(s, run[0]);
      ShutStep(s, run[0]);
      ClosedBodyRanFn(Apply(s, run[0]), run[1..]);
    }
  }
}
