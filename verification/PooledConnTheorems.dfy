/** What the invariant of PooledConn says about every run of a pooled connection. */
module PooledConnTheorems {
  import opened Basics
  import opened PooledConn

  // ----- the number of requests under way -----

  lemma {:induction false} PendingUpdate(us: seq<User>, u: nat, me: User)
    requires u < |us|
    ensures PendingIn(us[u := me]) == PendingIn(us) - (if Pending(us[u]) then 1 else 0) + (if Pending(me) then 1 else 0)
    decreases |us|
  {
    var n := |us| - 1;
    if u < n {
      PendingUpdate(us[..n], u, me);
      assert us[u := me][..n] == us[..n][u := me];
    } else {
      assert us[u := me][..n] == us[..n];
    }
  }

  lemma {:induction false} NonePending(us: seq<User>)
    ensures PendingIn(us) == 0 <==> forall u :: 0 <= u < |us| ==> !Pending(us[u])
  {
    if us != [] {
      var n := |us| - 1;
      NonePending(us[..n]);
      assert forall u :: 0 <= u < n ==> us[..n][u] == us[u];
    }
  }

  predicate Counted(s: State) { s.conn.expected == PendingIn(s.users) }

  predicate Books(s: State) { PutsCounted(s) && Counted(s) }

  lemma UserKeepsBooks(s: State, u: nat, a: UserAct)
    requires Books(s) && u < |s.users| && UserEnabled(s, u, a)
    ensures Books(UserApply(s, u, a))
  {
    PendingUpdate(s.users, u, UserApply(s, u, a).users[u]);
  }

  lemma BodyKeepsCounted(s: State, u: nat, a: BodyAct)
    requires Counted(s) && u < |s.users| && BodyEnabled(s, u, a)
    ensures Counted(BodyApply(s, u, a))
  {
    PendingUpdate(s.users, u, BodyApply(s, u, a).users[u]);
  }

  lemma BodyKeepsPuts(s: State, u: nat, a: BodyAct)
    requires s.loop.cur < |s.users| && AtMostOne(s) && PutsCounted(s) && u < |s.users| && BodyEnabled(s, u, a)
    requires InFn(s.users[u]) ==> s.loop.pc == WaitBody && s.loop.cur == u
    ensures PutsCounted(BodyApply(s, u, a))
  {
    assert a.Put? ==> BodyOpen(s) && s.conn.idle == 0;
    assert |BodyApply(s, u, a).users| == |s.users|;
  }

  lemma BodyKeepsBooks(s: State, u: nat, a: BodyAct)
    requires Indexes(s) && AtMostOne(s) && HooksWaited(s) && Books(s) && u < |s.users| && BodyEnabled(s, u, a)
    ensures Books(BodyApply(s, u, a))
  {
    BodyKeepsCounted(s, u, a);
    BodyKeepsPuts(s, u, a);
  }

  lemma LoopKeepsBooks(s: State, a: LoopAct)
    requires OneToken(s) && Books(s) && LoopEnabled(s, a)
    ensures Books(LoopApply(s, a))
  {
    if s.loop.last.Some? && s.loop.last.value < |s.users| {
      PendingUpdate(s.users, s.loop.last.value, LoopApply(s, a).users[s.loop.last.value]);
    }
    assert s.conn.idle <= 1;
  }

  lemma ReplyKeepsBooks(s: State, a: ReplyAct)
    requires OneToken(s) && Books(s) && s.loop.cur < |s.users| && ReplyEnabled(s, a)
    ensures Books(ReplyApply(s, a))
  {
    PendingUpdate(s.users, s.loop.cur, ReplyApply(s, a).users[s.loop.cur]);
    assert s.conn.idle <= 1;
  }

  lemma PoolKeepsBooks(s: State, a: PoolAct)
    requires OneToken(s) && Books(s) && PoolEnabled(s, a)
    ensures Books(PoolApply(s, a))
  {
    assert s.conn.idle <= 1;
    if a.Take? {
      assert PoolApply(s, a).users[..|s.users|] == s.users;
    }
  }

  // ----- one step, every run -----

  lemma UserStep(s: State, u: nat, a: UserAct)
    requires Inv(s) && u < |s.users| && UserEnabled(s, u, a)
    ensures Inv(UserApply(s, u, a))
  {
    UserKeepsIndexes(s, u, a); UserKeepsAtMostOne(s, u, a); UserKeepsNewest(s, u, a);
    UserKeepsHooks(s, u, a); UserKeepsBooks(s, u, a);
    UserKeepsQueued(s, u, a); UserKeepsLastIsRead(s, u, a); UserKeepsRuns(s, u, a);
  }

  lemma BodyStep(s: State, u: nat, a: BodyAct)
    requires Inv(s) && u < |s.users| && BodyEnabled(s, u, a)
    ensures Inv(BodyApply(s, u, a))
  {
    BodyKeepsIndexes(s, u, a); BodyKeepsAtMostOne(s, u, a); BodyKeepsNewest(s, u, a);
    BodyKeepsHooks(s, u, a); BodyKeepsBooks(s, u, a);
    BodyKeepsQueued(s, u, a); BodyKeepsLastIsRead(s, u, a); BodyKeepsRuns(s, u, a);
  }

  lemma LoopStep(s: State, a: LoopAct)
    requires Inv(s) && LoopEnabled(s, a)
    ensures Inv(LoopApply(s, a))
  {
    LoopKeepsIndexes(s, a); LoopKeepsAtMostOne(s, a); LoopKeepsNewest(s, a); LoopKeepsHooks(s, a); LoopKeepsBooks(s, a);
    LoopKeepsQueued(s, a); LoopKeepsLastIsRead(s, a); LoopKeepsRuns(s, a);
  }

  lemma ReplyStep(s: State, a: ReplyAct)
    requires Inv(s) && ReplyEnabled(s, a)
    ensures Inv(ReplyApply(s, a))
  {
    ReplyKeepsIndexes(s, a); ReplyKeepsAtMostOne(s, a); ReplyKeepsNewest(s, a);
    ReplyKeepsHooks(s, a); ReplyKeepsBooks(s, a);
    ReplyKeepsQueued(s, a); ReplyKeepsLastIsRead(s, a); ReplyKeepsRuns(s, a);
  }

  lemma PoolStep(s: State, a: PoolAct)
    requires Inv(s) && PoolEnabled(s, a)
    ensures Inv(PoolApply(s, a))
  {
    PoolKeepsAtMostOne(s, a); PoolKeepsNewest(s, a); PoolKeepsHooks(s, a); PoolKeepsQueued(s, a);
    PoolKeepsRuns(s, a); PoolKeepsBooks(s, a);
  }

  lemma Step(s: State, a: Action)
    requires Inv(s) && Enabled(s, a)
    ensures Inv(Apply(s, a))
  {
    match a
    case U(u, b) => UserStep(s, u, b);
    case B(u, b) => BodyStep(s, u, b);
    case L(b) => LoopStep(s, b);
    case R(b) => ReplyStep(s, b);
    case P(b) => PoolStep(s, b);
  }

  lemma {:induction false} RunKeepsInv(s: State, run: seq<Action>)
    requires Inv(s) && IsRun(s, run)
    ensures Inv(End(s, run))
    decreases |run|
  {
    if run != [] {
      Step(s, run[0]);
      RunKeepsInv(Apply(s, run[0]), run[1..]);
    }
  }

  /** The connection is in idleConn at most once, and put there at most once more than it was taken. */
  lemma PutsAreBounded(run: seq<Action>)
    requires IsRun(INIT, run)
    ensures var s := End(INIT, run); s.conn.idle <= 1 && s.conn.puts <= 1 + Gets(s)
    ensures var s := End(INIT, run); !s.conn.broken ==> s.conn.puts == Gets(s) + s.conn.idle
  {
    RunKeepsInv(INIT, run);
  }

  lemma UsersAgree(s: State, u: nat, v: nat)
    requires Indexes(s) && OneToken(s) && !Doubled(s) && Using(s, u) && Using(s, v)
    ensures s.conn.idle == 0 && u == v
  {
    assert u == |s.users| - 1;
    assert v == |s.users| - 1;
  }

  /** While readLoop has not run fn again, the connection has one user, or it is in the pool, never both. */
  lemma OneUser(run: seq<Action>, u: nat, v: nat)
    requires IsRun(INIT, run) && !Doubled(End(INIT, run))
    requires Using(End(INIT, run), u)
    ensures End(INIT, run).conn.idle == 0
    ensures Using(End(INIT, run), v) ==> u == v
  {
    RunKeepsInv(INIT, run);
    UsersAgree(End(INIT, run), u, u);
    if Using(End(INIT, run), v) {
      UsersAgree(End(INIT, run), u, v);
    }
  }

  /** An idle connection is in use by somebody if and only if readLoop has run fn again. */
  lemma SharedIffDoubled(run: seq<Action>)
    requires IsRun(INIT, run) && End(INIT, run).conn.idle > 0
    ensures (exists u: nat :: Using(End(INIT, run), u)) <==> Doubled(End(INIT, run))
  {
    var s := End(INIT, run);
    RunKeepsInv(INIT, run);
    if Doubled(s) {
      assert Using(s, s.loop.cur);
    } else if u: nat :| Using(s, u) {
      OneUser(run, u, u);
      assert false;
    }
  }

  lemma OnlyCheckDoubles(s: State, a: Action)
    requires Enabled(s, a) && !Doubled(s) && a != L(CheckLast)
    ensures !Doubled(Apply(s, a))
  {
  }

  /** readLoop runs fn again exactly when it closes the last body between its reader's send on
      waitForBodyRead inside Read and that reader's `es.fn = nil`. */
  lemma DoubledWhenHookNotCleared(run: seq<Action>, a: Action)
    requires IsRun(INIT, run) && Enabled(End(INIT, run), a) && !Doubled(End(INIT, run))
    ensures var s := End(INIT, run);
            Doubled(Apply(s, a)) <==> a == L(CheckLast) && s.users[s.loop.last.value].pc == RdClear
  {
    var s := End(INIT, run);
    RunKeepsInv(INIT, run);
    if a == L(CheckLast) {
      var b := s.users[s.loop.last.value];
      assert RunsOf(b, false) && Reading(b);
      assert b.hook <==> b.pc == RdClear;
    } else {
      OnlyCheckDoubles(s, a);
    }
  }

  /** fn runs at most once for every body if and only if readLoop has not run one again. */
  lemma HookRunsOnceIffNotDoubled(run: seq<Action>)
    requires IsRun(INIT, run)
    ensures var s := End(INIT, run);
            (forall u :: 0 <= u < |s.users| ==> s.users[u].runs <= 1) <==> !Doubled(s)
  {
    RunKeepsInv(INIT, run);
    var s := End(INIT, run);
    if Doubled(s) {
      assert s.users[s.loop.last.value].runs == 2;
    }
  }

  /** After that readLoop waits for itself for ever: no request it took or will be sent is answered. */
  lemma {:induction false} DoubledNeverReplies(s: State, run: seq<Action>)
    requires IsRun(s, run) && s.loop.pc == LastSend && s.loop.cur < |s.users| && !s.users[s.loop.cur].ch
    ensures End(s, run).loop.pc == LastSend && End(s, run).loop.cur == s.loop.cur
    ensures s.loop.cur < |End(s, run).users| && !End(s, run).users[s.loop.cur].ch
    decreases |run|
  {
    if run != [] {
      DoubledNeverReplies(Apply(s, run[0]), run[1..]);
    }
  }

  /** readLoop closes a connection as idle only when no request on it is between its write and its answer. */
  lemma ExpectedIsPending(run: seq<Action>)
    requires IsRun(INIT, run)
    ensures var s := End(INIT, run);
            s.conn.expected >= 0 && (s.conn.expected == 0 <==> forall u :: 0 <= u < |s.users| ==> !Pending(s.users[u]))
  {
    RunKeepsInv(INIT, run);
    NonePending(End(INIT, run).users);
  }

  /** The request channel never holds back a user while readLoop serves: at most one request is queued. */
  lemma QueueIsShort(run: seq<Action>)
    requires IsRun(INIT, run) && !Doubled(End(INIT, run))
    ensures |End(INIT, run).reqch| <= 1
  {
    RunKeepsInv(INIT, run);
  }

  lemma {:induction false} EndAppend(s: State, run: seq<Action>, a: Action)
    requires IsRun(s, run) && Enabled(End(s, run), a)
    ensures IsRun(s, run + [a]) && End(s, run + [a]) == Apply(End(s, run), a)
    decreases |run|
  {
    if run == [] {
      assert (run + [a])[1..] == [];
      assert End(Apply(s, a), []) == Apply(s, a);
    } else {
      assert (run + [a])[1..] == run[1..] + [a];
      EndAppend(Apply(s, run[0]), run[1..], a);
    }
  }

  lemma Push(run: seq<Action>, a: Action) returns (r: seq<Action>)
    requires IsRun(INIT, run) && Enabled(End(INIT, run), a)
    ensures IsRun(INIT, r) && End(INIT, r) == Apply(End(INIT, run), a)
  {
    r := run + [a];
    EndAppend(INIT, run, a);
  }

  /** User 0 has its response; its body is open. */
  lemma FirstRequest() returns (run: seq<Action>)
    ensures IsRun(INIT, run)
    ensures End(INIT, run) ==
            State(Conn(false, 0, 0, 0), [User(Reader, false, true, false, 0)], [],
                  Loop(WaitBody, 0, Some(0), true, true))
  {
    run := Push([], U(0, Begin));
    run := Push(run, U(0, Written(true)));
    run := Push(run, U(0, Queue));
    run := Push(run, L(Peeked));
    run := Push(run, L(TakeRequest));
    run := Push(run, L(ShutLast(true)));
    run := Push(run, R(ReadResponse(KeepWithBody)));
    run := Push(run, R(SendReply));
    run := Push(run, U(0, Receive));
    run := Push(run, U(0, Finish));
  }

  /** User 1's request is taken while user 0 has not yet cleared fn. */
  lemma SecondRequest() returns (run: seq<Action>)
    ensures IsRun(INIT, run)
    ensures End(INIT, run) ==
            State(Conn(false, 0, 1, 1), [User(RdClear, false, true, false, 1), User(Await, false, false, false, 0)], [],
                  Loop(LastShut, 1, Some(0), false, true))
  {
    run := FirstRequest();
    run := Push(run, B(0, ReadEof));
    run := Push(run, B(0, BodyAct.Put(true)));
    run := Push(run, B(0, SendTrue));
    run := Push(run, P(Take));
    run := Push(run, U(1, Begin));
    run := Push(run, U(1, Written(true)));
    run := Push(run, U(1, Queue));
    run := Push(run, L(Peeked));
    run := Push(run, L(TakeRequest));
  }

  /** The connection is handed to user 2 while the request of user 1 is being served. */
  lemma SharedByTwo() returns (run: seq<Action>)
    ensures IsRun(INIT, run)
    ensures var s := End(INIT, run); Using(s, 1) && Using(s, 2) && s.users[0].runs == 2 && s.conn.puts == 2
  {
    run := SecondRequest();
    run := Push(run, L(ShutLast(true)));
    run := Push(run, L(CheckLast));
    run := Push(run, L(PutLast(true)));
    run := Push(run, P(Take));
  }
}
