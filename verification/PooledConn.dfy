/** One reusable connection of transport/transport.go: its users, its readLoop, and its place in idleConn. */
module PooledConn {
  import opened Basics

  /** What a user of the connection does next. The user who gets the connection from the pool for
      the k-th time has number k; number 0 dialed it. Rd* and Cl* are the steps of fn inside Read and Close. */
  datatype UserPc =
    | Hold | Write | Send | Await | Got | Failed
    | Reader | RdPut | RdSend | RdClear | ClPut | ClSend | ClClear

  /** `ch`: roundTrip's channel holds the reply; `hook`, `shut`: bodyEOFSignal's fn and isClosed;
      `runs` counts how often fn was run. */
  datatype User = User(pc: UserPc, ch: bool, hook: bool, shut: bool, runs: nat)

  datatype LoopPc = Peek | Recv | LastShut | LastHook | LastPut | LastSend | Read | PutEmpty | Reply | WaitBody | Exit

  /** `cur`: the request in rc; `last`: lastbody; `wait`: waitForBodyRead is not nil. */
  datatype Loop = Loop(pc: LoopPc, cur: nat, last: Option<nat>, wait: bool, alive: bool)

  /** `idle`: how often the connection is in idleConn; `puts`: how often it was put there. */
  datatype Conn = Conn(broken: bool, idle: nat, puts: nat, expected: int)

  datatype State = State(conn: Conn, users: seq<User>, reqch: seq<nat>, loop: Loop)

  const REQCH_CAP := 50

  const NEWCOMER := User(Hold, false, false, false, 0)

  const INIT := State(Conn(false, 0, 0, 0), [NEWCOMER], [], Loop(Peek, 0, None, false, true))

  /** The times getIdleConn handed the connection out. */
  function Gets(s: State): int { |s.users| - 1 }

  // ----- steps -----

  /** roundTrip. */
  datatype UserAct =
    | Begin                   // numExpectedResponses++
    | Written(ok: bool)       // the request is written, or the connection closed
    | Queue                   // pc.reqch <- requestAndChan
    | Receive                 // re := <-ch
    | Finish                  // numExpectedResponses--

  /** The reader of a response body. */
  datatype BodyAct =
    | ReadEof                 // a body Read that meets EOF
    | CloseBody(ok: bool)     // a body Close, with the inner Close's success
    | Put(accept: bool)       // fn: putIdleConn, which may refuse
    | SendTrue                // fn: waitForBodyRead <- true, received by readLoop
    | Clear                   // es.fn = nil

  datatype ReadKind = ReadFails | LastOne | KeepWithBody | KeepEmpty

  /** readLoop before it reads a response. */
  datatype LoopAct = Peeked | TakeRequest | ShutLast(ok: bool) | CheckLast | PutLast(accept: bool)

  /** readLoop with a response. */
  datatype ReplyAct = ReadResponse(kind: ReadKind) | PutIdle(accept: bool) | SendReply

  datatype PoolAct =
    | Take          // getIdleConn returns the connection to a new user
    | DropBroken    // getIdleConn pops it and finds it broken
    | CloseIdle     // CloseIdleConnections
    | Break         // any other close

  datatype Action =
    | U(user: nat, uact: UserAct) | B(reader: nat, bact: BodyAct)
    | L(lact: LoopAct) | R(ract: ReplyAct) | P(pact: PoolAct)

  function AfterPut(c: Conn, accept: bool): Conn {
    if c.broken then c
    else if accept then c.(idle := c.idle + 1, puts := c.puts + 1)
    else c.(broken := true)
  }

  function Accepted(c: Conn, accept: bool): bool { !c.broken && accept }

  predicate UserEnabled(s: State, u: nat, a: UserAct)
    requires u < |s.users|
  {
    var me := s.users[u];
    match a
    case Begin => me.pc == Hold
    case Written(_) => me.pc == Write
    case Queue => me.pc == Send && |s.reqch| < REQCH_CAP
    case Receive => me.pc == Await && me.ch
    case Finish => me.pc == Got
  }

  predicate BodyEnabled(s: State, u: nat, a: BodyAct)
    requires u < |s.users|
  {
    var me := s.users[u];
    match a
    case ReadEof => me.pc == Reader
    case CloseBody(_) => me.pc == Reader
    case Put(_) => me.pc == RdPut || me.pc == ClPut
    case SendTrue => (me.pc == RdSend || me.pc == ClSend) && s.loop.pc == WaitBody && s.loop.cur == u
    case Clear => me.pc == RdClear || me.pc == ClClear
  }

  function WithUser(s: State, u: nat, me: User): State
    requires u < |s.users|
  {
    s.(users := s.users[u := me])
  }

  function UserApply(s: State, u: nat, a: UserAct): State
    requires u < |s.users| && UserEnabled(s, u, a)
  {
    var me := s.users[u];
    match a
    case Begin => WithUser(s, u, me.(pc := Write)).(conn := s.conn.(expected := s.conn.expected + 1))
    case Written(ok) =>
      if ok then WithUser(s, u, me.(pc := Send))
      else WithUser(s, u, me.(pc := Failed)).(conn := s.conn.(broken := true))
    case Queue => WithUser(s, u, me.(pc := Await)).(reqch := s.reqch + [u])
    case Receive => WithUser(s, u, me.(pc := Got, ch := false))
    case Finish => WithUser(s, u, me.(pc := Reader)).(conn := s.conn.(expected := s.conn.expected - 1))
  }

  function BodyApply(s: State, u: nat, a: BodyAct): State
    requires u < |s.users| && BodyEnabled(s, u, a)
  {
    var me := s.users[u];
    match a
    case ReadEof => if me.hook then WithUser(s, u, me.(pc := RdPut, runs := me.runs + 1)) else s
    case CloseBody(ok) =>
      if me.shut then s
      else if ok && me.hook then WithUser(s, u, me.(pc := ClPut, shut := true, runs := me.runs + 1))
      else WithUser(s, u, me.(shut := true))
    case Put(accept) =>
      var t := WithUser(s, u, me.(pc := if me.pc == RdPut then RdSend else ClSend));
      t.(conn := AfterPut(s.conn, accept), loop := s.loop.(alive := s.loop.alive && Accepted(s.conn, accept)))
    case SendTrue =>
      var t := WithUser(s, u, me.(pc := if me.pc == RdSend then RdClear else ClClear));
      t.(loop := s.loop.(pc := if s.loop.alive then Peek else Exit, wait := false))
    case Clear => WithUser(s, u, me.(pc := Reader, hook := false))
  }

  predicate LoopEnabled(s: State, a: LoopAct) {
    var l := s.loop;
    match a
    case Peeked => l.pc == Peek
    case TakeRequest => l.pc == Recv && s.reqch != [] && s.reqch[0] < |s.users|
    case ShutLast(_) => l.pc == LastShut && (l.last.Some? ==> l.last.value < |s.users|)
    case CheckLast => l.pc == LastHook && l.last.Some? && l.last.value < |s.users|
    case PutLast(_) => l.pc == LastPut
  }

  predicate ReplyEnabled(s: State, a: ReplyAct) {
    var l := s.loop;
    match a
    case ReadResponse(_) => l.pc == Read && l.cur < |s.users|
    case PutIdle(_) => l.pc == PutEmpty
    case SendReply => l.pc == Reply && l.cur < |s.users|
  }

  function LoopApply(s: State, a: LoopAct): State
    requires LoopEnabled(s, a)
  {
    var l := s.loop;
    match a
    case Peeked =>
      if s.conn.expected == 0 then s.(conn := s.conn.(broken := true), loop := l.(pc := Exit))
      else s.(loop := l.(pc := Recv))
    case TakeRequest => s.(reqch := s.reqch[1..], loop := l.(pc := LastShut, cur := s.reqch[0]))
    case ShutLast(ok) =>
      if l.last.None? then s.(loop := l.(pc := Read))
      else
        var b := s.users[l.last.value];
        if b.shut then s.(loop := l.(pc := Read, last := None))
        else
          var t := WithUser(s, l.last.value, b.(shut := true));
          if ok then t.(loop := l.(pc := LastHook)) else t.(loop := l.(pc := Read, last := None))
    case CheckLast =>
      var b := s.users[l.last.value];
      if b.hook then WithUser(s, l.last.value, b.(runs := b.runs + 1)).(loop := l.(pc := LastPut))
      else s.(loop := l.(pc := Read, last := None))
    case PutLast(accept) =>
      s.(conn := AfterPut(s.conn, accept), loop := l.(pc := LastSend, alive := l.alive && Accepted(s.conn, accept)))
  }

  function ReplyApply(s: State, a: ReplyAct): State
    requires ReplyEnabled(s, a)
  {
    var l := s.loop;
    match a
    case ReadResponse(kind) => (
      match kind
      case ReadFails => s.(conn := s.conn.(broken := true), loop := l.(pc := Reply, alive := false))
      case LastOne => s.(loop := l.(pc := Reply, alive := false))
      case KeepWithBody =>
        WithUser(s, l.cur, s.users[l.cur].(hook := true)).(loop := l.(pc := Reply, last := Some(l.cur), wait := true))
      case KeepEmpty => s.(loop := l.(pc := PutEmpty, last := None)))
    case PutIdle(accept) =>
      s.(conn := AfterPut(s.conn, accept), loop := l.(pc := Reply, alive := l.alive && Accepted(s.conn, accept)))
    case SendReply =>
      var t := WithUser(s, l.cur, s.users[l.cur].(ch := true));
      t.(loop := l.(pc := if l.wait then WaitBody else if l.alive then Peek else Exit))
  }

  predicate PoolEnabled(s: State, a: PoolAct) {
    match a
    case Take => s.conn.idle > 0 && !s.conn.broken
    case DropBroken => s.conn.idle > 0 && s.conn.broken
    case CloseIdle => s.conn.idle > 0
    case Break => true
  }

  function PoolApply(s: State, a: PoolAct): State
    requires PoolEnabled(s, a)
  {
    match a
    case Take => s.(conn := s.conn.(idle := s.conn.idle - 1), users := s.users + [NEWCOMER])
    case DropBroken => s.(conn := s.conn.(idle := s.conn.idle - 1))
    case CloseIdle => s.(conn := s.conn.(idle := 0, broken := true))
    case Break => s.(conn := s.conn.(broken := true))
  }

  predicate Enabled(s: State, a: Action) {
    match a
    case U(u, b) => u < |s.users| && UserEnabled(s, u, b)
    case B(u, b) => u < |s.users| && BodyEnabled(s, u, b)
    case L(b) => LoopEnabled(s, b)
    case R(b) => ReplyEnabled(s, b)
    case P(b) => PoolEnabled(s, b)
  }

  function Apply(s: State, a: Action): State
    requires Enabled(s, a)
  {
    match a
    case U(u, b) => UserApply(s, u, b)
    case B(u, b) => BodyApply(s, u, b)
    case L(b) => LoopApply(s, b)
    case R(b) => ReplyApply(s, b)
    case P(b) => PoolApply(s, b)
  }

  predicate IsRun(s: State, run: seq<Action>)
    decreases |run|
  {
    run == [] || (Enabled(s, run[0]) && IsRun(Apply(s, run[0]), run[1..]))
  }

  function End(s: State, run: seq<Action>): State
    requires IsRun(s, run)
    decreases |run|
  {
    if run == [] then s else End(Apply(s, run[0]), run[1..])
  }

  // ----- who may still put the connection back -----

  /** readLoop has found fn still set on the body before, and runs it a second time. */
  predicate Doubled(s: State) { s.loop.pc == LastPut || s.loop.pc == LastSend }

  predicate Writing(u: User) { u.pc == Hold || u.pc == Write || u.pc == Send }

  predicate InFn(u: User) { u.pc == RdPut || u.pc == RdSend || u.pc == ClPut || u.pc == ClSend }

  /** readLoop works on rc and has not yet decided what becomes of the connection. */
  predicate Serving(s: State) {
    s.loop.pc == LastShut || s.loop.pc == LastHook || s.loop.pc == Read || s.loop.pc == PutEmpty
  }

  predicate BodyPhase(s: State) { (s.loop.pc == Reply && s.loop.wait) || s.loop.pc == WaitBody }

  /** rc's response body is not yet read or closed to its end. */
  predicate BodyOpen(s: State) {
    BodyPhase(s) && s.loop.cur < |s.users| && s.users[s.loop.cur].pc != RdSend && s.users[s.loop.cur].pc != ClSend
  }

  /** User u is writing its request, has it queued, or has its response served or its body open. */
  predicate Using(s: State, u: nat) {
    && u < |s.users|
    && (Writing(s.users[u]) || u in s.reqch || ((Serving(s) || Doubled(s) || BodyOpen(s)) && s.loop.cur == u))
  }

  predicate LastWrites(s: State) { s.users != [] && Writing(s.users[|s.users| - 1]) }

  /** The rights to put the connection, and its places in the pool. */
  function Tokens(s: State): nat {
    s.conn.idle + |s.reqch| + (if Serving(s) || BodyOpen(s) then 1 else 0) + (if LastWrites(s) then 1 else 0)
  }

  predicate Indexes(s: State) {
    && s.users != []
    && s.loop.cur < |s.users|
    && (s.loop.last.Some? ==> s.loop.last.value < |s.users|)
    && (s.loop.pc == LastHook ==> s.loop.last.Some?)
    && (forall i :: 0 <= i < |s.reqch| ==> s.reqch[i] < |s.users|)
  }

  predicate AtMostOne(s: State) {
    if Doubled(s) then s.conn.idle + (if s.loop.pc == LastPut then 1 else 0) <= 1 else Tokens(s) <= 1
  }

  /** The right is the newest user's. */
  predicate NewestOwns(s: State) {
    Doubled(s) ||
      (&& (forall u :: 0 <= u < |s.users| - 1 ==> !Writing(s.users[u]))
       && (s.reqch != [] ==> s.reqch[0] == |s.users| - 1)
       && (Serving(s) || BodyOpen(s) ==> s.loop.cur == |s.users| - 1))
  }

  predicate OneToken(s: State) { AtMostOne(s) && NewestOwns(s) }

  /** fn is run by a user only while readLoop waits for that user's body. */
  predicate HooksWaited(s: State) {
    && (s.loop.wait ==> BodyPhase(s) && s.loop.last == Some(s.loop.cur))
    && (s.loop.pc == WaitBody ==> s.loop.wait)
    && (forall u :: 0 <= u < |s.users| ==>
          (InFn(s.users[u]) ==> s.users[u].hook && s.loop.pc == WaitBody && s.loop.cur == u))
    && (forall u :: 0 <= u < |s.users| && s.users[u].hook && s.users[u].pc != RdClear && s.users[u].pc != ClClear ==>
          BodyPhase(s) && s.loop.cur == u)
  }

  /** Gone from the pool without a user means broken. */
  predicate PutsCounted(s: State) {
    s.conn.puts <= Gets(s) + 1 && (!s.conn.broken ==> s.conn.puts == Gets(s) + s.conn.idle)
  }

  predicate Untouched(u: User) { !u.ch && !u.hook && !u.shut && u.runs == 0 }

  predicate Unanswered(u: User) { u.pc == Await && Untouched(u) }

  predicate Reading(u: User) { u.pc == Reader || InFn(u) || u.pc == RdClear || u.pc == ClClear }

  predicate Queued(s: State) {
    && (forall u :: 0 <= u < |s.users| && Writing(s.users[u]) ==> Untouched(s.users[u]))
    && (forall i :: 0 <= i < |s.reqch| && s.reqch[i] < |s.users| ==> Unanswered(s.users[s.reqch[i]]))
    && (Serving(s) || Doubled(s) ==> s.loop.cur < |s.users| && Unanswered(s.users[s.loop.cur]))
    && (s.loop.pc == Reply ==>
          && s.loop.cur < |s.users| && s.users[s.loop.cur].pc == Await && !s.users[s.loop.cur].ch
          && s.loop.cur !in s.reqch)
  }

  predicate LastIsRead(s: State) {
    s.loop.last.Some? && !s.loop.wait && s.loop.last.value < |s.users| ==> Reading(s.users[s.loop.last.value])
  }

  predicate ClosingBody(u: User) { u.pc == ClPut || u.pc == ClSend || u.pc == ClClear }

  predicate RunsOf(u: User, twice: bool) {
    && (u.hook ==> u.runs == if twice then 2 else if InFn(u) || u.pc == RdClear || u.pc == ClClear then 1 else 0)
    && (!u.hook ==> u.runs <= 1 || twice)
    && (twice ==> u.runs == 2)
    && (ClosingBody(u) ==> u.shut)
    && (u.pc == RdClear || u.pc == ClClear ==> u.hook)
  }

  /** The runs of fn: none before it is called, one from then on, unless readLoop runs it again. */
  predicate RunsCounted(s: State) {
    && (forall u :: 0 <= u < |s.users| ==> RunsOf(s.users[u], Doubled(s) && s.loop.last == Some(u)))
    && (s.loop.pc == LastHook || Doubled(s) ==> s.loop.last.Some? && s.loop.last.value < |s.users|)
    && (s.loop.pc == LastHook ==> s.users[s.loop.last.value].shut && !ClosingBody(s.users[s.loop.last.value]))
  }

  predicate Pending(u: User) { u.pc == Write || u.pc == Send || u.pc == Await || u.pc == Got || u.pc == Failed }

  function PendingIn(us: seq<User>): nat {
    if us == [] then 0 else PendingIn(us[..|us| - 1]) + (if Pending(us[|us| - 1]) then 1 else 0)
  }

  predicate Inv(s: State) {
    && Indexes(s) && OneToken(s) && HooksWaited(s) && PutsCounted(s) && Queued(s) && LastIsRead(s) && RunsCounted(s)
    && s.conn.expected == PendingIn(s.users)
  }

  // ----- every step keeps it -----

  lemma UserKeepsIndexes(s: State, u: nat, a: UserAct)
    requires Indexes(s)
    requires u < |s.users| && UserEnabled(s, u, a)
    ensures Indexes(UserApply(s, u, a))
  {
  }

  lemma BodyKeepsIndexes(s: State, u: nat, a: BodyAct)
    requires Indexes(s)
    requires u < |s.users| && BodyEnabled(s, u, a)
    ensures Indexes(BodyApply(s, u, a))
  {
  }

  lemma LoopKeepsIndexes(s: State, a: LoopAct)
    requires Indexes(s)
    requires LoopEnabled(s, a)
    ensures Indexes(LoopApply(s, a))
  {
  }

  lemma ReplyKeepsIndexes(s: State, a: ReplyAct)
    requires Indexes(s)
    requires ReplyEnabled(s, a)
    ensures Indexes(ReplyApply(s, a))
  {
  }

  lemma UserKeepsAtMostOne(s: State, u: nat, a: UserAct)
    requires Indexes(s) && OneToken(s)
    requires u < |s.users| && UserEnabled(s, u, a)
    ensures AtMostOne(UserApply(s, u, a))
  {
    var t := UserApply(s, u, a);
    if !Doubled(s) {
      assert BodyOpen(t) == BodyOpen(s);
      assert |t.reqch| == |s.reqch| + (if a.Queue? then 1 else 0);
      assert u != |s.users| - 1 ==> LastWrites(t) == LastWrites(s);
      assert a.Queue? ==> u == |s.users| - 1;
    }
  }

  lemma UserKeepsNewest(s: State, u: nat, a: UserAct)
    requires Indexes(s) && HooksWaited(s) && OneToken(s)
    requires u < |s.users| && UserEnabled(s, u, a)
    ensures NewestOwns(UserApply(s, u, a))
  {
  }

  lemma ReadingKeepsAtMostOne(s: State, u: nat, a: BodyAct)
    requires s.loop.cur < |s.users| && AtMostOne(s)
    requires u < |s.users| && BodyEnabled(s, u, a) && (a.ReadEof? || a.CloseBody? || a.Clear?)
    ensures AtMostOne(BodyApply(s, u, a))
  {
    var t := BodyApply(s, u, a);
    assert t.conn == s.conn && t.reqch == s.reqch && t.loop == s.loop;
    assert LastWrites(t) == LastWrites(s);
    assert BodyOpen(t) == BodyOpen(s);
  }

  lemma HookKeepsAtMostOne(s: State, u: nat, a: BodyAct)
    requires s.loop.cur < |s.users| && AtMostOne(s)
    requires u < |s.users| && BodyEnabled(s, u, a) && (a.Put? || a.SendTrue?)
    requires InFn(s.users[u]) ==> s.loop.pc == WaitBody && s.loop.cur == u
    ensures AtMostOne(BodyApply(s, u, a))
  {
    var t := BodyApply(s, u, a);
    assert !Doubled(s) && !Doubled(t) && LastWrites(t) == LastWrites(s) && t.reqch == s.reqch;
    assert BodyOpen(s) == a.Put? && !BodyOpen(t);
  }

  lemma BodyKeepsAtMostOne(s: State, u: nat, a: BodyAct)
    requires s.loop.cur < |s.users| && AtMostOne(s)
    requires u < |s.users| && BodyEnabled(s, u, a)
    requires InFn(s.users[u]) ==> s.loop.pc == WaitBody && s.loop.cur == u
    ensures AtMostOne(BodyApply(s, u, a))
  {
    if a.Put? || a.SendTrue? {
      HookKeepsAtMostOne(s, u, a);
    } else {
      ReadingKeepsAtMostOne(s, u, a);
    }
  }

  lemma BodyKeepsNewest(s: State, u: nat, a: BodyAct)
    requires Indexes(s) && HooksWaited(s) && OneToken(s)
    requires u < |s.users| && BodyEnabled(s, u, a)
    ensures NewestOwns(BodyApply(s, u, a))
  {
  }

  lemma LoopKeepsAtMostOne(s: State, a: LoopAct)
    requires Indexes(s) && AtMostOne(s)
    requires LoopEnabled(s, a)
    ensures AtMostOne(LoopApply(s, a))
  {
  }

  lemma LoopKeepsNewest(s: State, a: LoopAct)
    requires Indexes(s) && HooksWaited(s) && OneToken(s)
    requires LoopEnabled(s, a)
    ensures NewestOwns(LoopApply(s, a))
  {
  }

  lemma ReadKeepsAtMostOne(s: State, a: ReplyAct)
    requires s.loop.cur < |s.users| && HooksWaited(s) && AtMostOne(s)
    requires ReplyEnabled(s, a) && a.ReadResponse?
    ensures AtMostOne(ReplyApply(s, a))
  {
    var t := ReplyApply(s, a);
    assert Serving(s) && t.conn.idle == s.conn.idle && t.reqch == s.reqch;
    assert LastWrites(t) == LastWrites(s);
  }

  lemma AnswerKeepsAtMostOne(s: State, a: ReplyAct)
    requires s.loop.cur < |s.users| && HooksWaited(s) && AtMostOne(s)
    requires ReplyEnabled(s, a) && !a.ReadResponse?
    ensures AtMostOne(ReplyApply(s, a))
  {
    assert LastWrites(ReplyApply(s, a)) == LastWrites(s);
  }

  lemma ReplyKeepsAtMostOne(s: State, a: ReplyAct)
    requires s.loop.cur < |s.users| && HooksWaited(s) && AtMostOne(s)
    requires ReplyEnabled(s, a)
    ensures AtMostOne(ReplyApply(s, a))
  {
    if a.ReadResponse? {
      ReadKeepsAtMostOne(s, a);
    } else {
      AnswerKeepsAtMostOne(s, a);
    }
  }

  lemma ReplyKeepsNewest(s: State, a: ReplyAct)
    requires Indexes(s) && HooksWaited(s) && OneToken(s)
    requires ReplyEnabled(s, a)
    ensures NewestOwns(ReplyApply(s, a))
  {
  }

  lemma PoolKeepsAtMostOne(s: State, a: PoolAct)
    requires Indexes(s) && OneToken(s) && PoolEnabled(s, a)
    ensures AtMostOne(PoolApply(s, a))
  {
  }

  lemma PoolKeepsNewest(s: State, a: PoolAct)
    requires Indexes(s) && OneToken(s) && PoolEnabled(s, a)
    ensures NewestOwns(PoolApply(s, a))
  {
  }

  lemma UserKeepsHooks(s: State, u: nat, a: UserAct)
    requires Indexes(s) && HooksWaited(s) && Queued(s)
    requires u < |s.users| && UserEnabled(s, u, a)
    ensures HooksWaited(UserApply(s, u, a))
  {
  }

  lemma BodyKeepsHooks(s: State, u: nat, a: BodyAct)
    requires Indexes(s) && HooksWaited(s) && Queued(s)
    requires u < |s.users| && BodyEnabled(s, u, a)
    ensures HooksWaited(BodyApply(s, u, a))
  {
  }

  lemma LoopKeepsHooks(s: State, a: LoopAct)
    requires Indexes(s) && HooksWaited(s) && Queued(s)
    requires LoopEnabled(s, a)
    ensures HooksWaited(LoopApply(s, a))
  {
  }

  lemma ReplyKeepsHooks(s: State, a: ReplyAct)
    requires Indexes(s) && HooksWaited(s) && Queued(s)
    requires ReplyEnabled(s, a)
    ensures HooksWaited(ReplyApply(s, a))
  {
  }

  lemma UserKeepsQueued(s: State, u: nat, a: UserAct)
    requires Indexes(s) && OneToken(s) && Queued(s)
    requires u < |s.users| && UserEnabled(s, u, a)
    ensures Queued(UserApply(s, u, a))
  {
  }

  /** A reader of a body is not waiting for an answer, so what Queued speaks of does not change. */
  lemma BodyKeepsQueued(s: State, u: nat, a: BodyAct)
    requires Indexes(s) && Queued(s)
    requires u < |s.users| && BodyEnabled(s, u, a)
    ensures Queued(BodyApply(s, u, a))
  {
    var t := BodyApply(s, u, a);
    assert t.reqch == s.reqch && t.loop.cur == s.loop.cur;
    assert Reading(s.users[u]) && Reading(t.users[u]);
    assert forall v :: 0 <= v < |s.users| && v != u ==> t.users[v] == s.users[v];
  }

  lemma LoopKeepsQueued(s: State, a: LoopAct)
    requires Indexes(s) && OneToken(s) && HooksWaited(s) && Queued(s) && LastIsRead(s)
    requires LoopEnabled(s, a)
    ensures Queued(LoopApply(s, a))
  {
  }

  lemma ReplyKeepsQueued(s: State, a: ReplyAct)
    requires Indexes(s) && OneToken(s) && Queued(s)
    requires ReplyEnabled(s, a)
    ensures Queued(ReplyApply(s, a))
  {
    var t := ReplyApply(s, a);
    assert t.reqch == s.reqch;
    assert !a.SendReply? ==> s.reqch == [];
  }

  lemma UserKeepsLastIsRead(s: State, u: nat, a: UserAct)
    requires Indexes(s) && HooksWaited(s) && LastIsRead(s)
    requires u < |s.users| && UserEnabled(s, u, a)
    ensures LastIsRead(UserApply(s, u, a))
  {
  }

  lemma BodyKeepsLastIsRead(s: State, u: nat, a: BodyAct)
    requires Indexes(s) && HooksWaited(s) && LastIsRead(s)
    requires u < |s.users| && BodyEnabled(s, u, a)
    ensures LastIsRead(BodyApply(s, u, a))
  {
  }

  lemma LoopKeepsLastIsRead(s: State, a: LoopAct)
    requires Indexes(s) && HooksWaited(s) && LastIsRead(s)
    requires LoopEnabled(s, a)
    ensures LastIsRead(LoopApply(s, a))
  {
  }

  lemma ReplyKeepsLastIsRead(s: State, a: ReplyAct)
    requires Indexes(s) && HooksWaited(s) && LastIsRead(s)
    requires ReplyEnabled(s, a)
    ensures LastIsRead(ReplyApply(s, a))
  {
  }

  lemma UserKeepsRuns(s: State, u: nat, a: UserAct)
    requires Indexes(s) && HooksWaited(s) && Queued(s) && RunsCounted(s)
    requires u < |s.users| && UserEnabled(s, u, a)
    ensures RunsCounted(UserApply(s, u, a))
  {
    var t := UserApply(s, u, a);
    assert t.loop == s.loop && t.users[u] == s.users[u].(pc := t.users[u].pc, ch := t.users[u].ch);
    assert !s.users[u].hook || (!InFn(t.users[u]) && t.users[u].pc != RdClear && t.users[u].pc != ClClear);
  }

  lemma ReadingKeepsRuns(s: State, u: nat, a: BodyAct)
    requires HooksWaited(s) && RunsCounted(s)
    requires u < |s.users| && BodyEnabled(s, u, a) && (a.ReadEof? || a.CloseBody?)
    ensures RunsCounted(BodyApply(s, u, a))
  {
  }

  lemma HookKeepsRuns(s: State, u: nat, a: BodyAct)
    requires HooksWaited(s) && RunsCounted(s)
    requires u < |s.users| && BodyEnabled(s, u, a) && (a.Put? || a.SendTrue? || a.Clear?)
    ensures RunsCounted(BodyApply(s, u, a))
  {
  }

  lemma BodyKeepsRuns(s: State, u: nat, a: BodyAct)
    requires HooksWaited(s) && RunsCounted(s)
    requires u < |s.users| && BodyEnabled(s, u, a)
    ensures RunsCounted(BodyApply(s, u, a))
  {
    if a.ReadEof? || a.CloseBody? {
      ReadingKeepsRuns(s, u, a);
    } else {
      HookKeepsRuns(s, u, a);
    }
  }

  lemma LoopKeepsRuns(s: State, a: LoopAct)
    requires Indexes(s) && HooksWaited(s) && Queued(s) && RunsCounted(s)
    requires LoopEnabled(s, a)
    ensures RunsCounted(LoopApply(s, a))
  {
  }

  lemma ReplyKeepsRuns(s: State, a: ReplyAct)
    requires Indexes(s) && HooksWaited(s) && Queued(s) && RunsCounted(s)
    requires ReplyEnabled(s, a)
    ensures RunsCounted(ReplyApply(s, a))
  {
  }

  lemma PoolKeepsHooks(s: State, a: PoolAct)
    requires Indexes(s) && HooksWaited(s) && PoolEnabled(s, a)
    ensures var t := PoolApply(s, a); Indexes(t) && HooksWaited(t)
  {
  }

  lemma PoolKeepsQueued(s: State, a: PoolAct)
    requires Indexes(s) && Queued(s) && LastIsRead(s) && PoolEnabled(s, a)
    ensures var t := PoolApply(s, a); Queued(t) && LastIsRead(t)
  {
  }

  lemma PoolKeepsRuns(s: State, a: PoolAct)
    requires Indexes(s) && RunsCounted(s) && PoolEnabled(s, a)
    ensures var t := PoolApply(s, a); RunsCounted(t)
  {
  }
}
