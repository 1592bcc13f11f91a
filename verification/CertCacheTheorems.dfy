/** The promises of the certificate cache, for any number of threads and every interleaving. */
module CertCacheTheorems {
  import opened Basics
  import opened CertCache
  import opened CertCacheSafety

  lemma StartStep(s: State, t: Tid, h: Host, call: Call)
    requires Inv(s) && t !in s.threads
    ensures Inv(Apply(s, Start(t, h, call)))
  {
  }

  lemma AnyStep(s: State, a: Action)
    requires Inv(s) && Enabled(s, a)
    ensures Inv(Apply(s, a))
  {
    match a
    case Tick(_) =>
    case Start(t, h, call) => StartStep(s, t, h, call);
    case Go(t, id, answer) => Step(s, t, id, answer);
  }

  lemma {:induction false} RunKeepsInv(s: State, actions: seq<Action>, t: State)
    requires Inv(s) && Run(s, actions, t)
    ensures Inv(t)
    decreases |actions|
  {
    if actions != [] {
      AnyStep(s, actions[0]);
      RunKeepsInv(Apply(s, actions[0]), actions[1..], t);
    }
  }

  lemma ReachableInv(t: State)
    requires Reachable(t)
    ensures Inv(t)
  {
    var s, actions :| Init(s) && Run(s, actions, t);
    RunKeepsInv(s, actions, t);
  }

  /** A published entry for h has a Config, and the names of that Config are exactly {h}, with its one certificate. */
  lemma PublishedIsComplete(s: State, h: Host)
    requires Reachable(s) && h in s.sh.obj.table
    ensures var i := s.sh.obj.table[h];
            && i in s.sh.obj.configOf && s.sh.obj.configOf[i].Some?
            && ConfigFor(s.sh.obj, s.sh.obj.configOf[i].value, h)
  {
    ReachableInv(s);
  }

  /** Cert and GetTestCertificate return an error or a Config for their host, never a nil Config, and never crash. */
  lemma NeverNilWithoutError(s: State, t: Tid)
    requires Reachable(s) && t in s.threads
    ensures !s.sh.crashed
    ensures match s.threads[t]
            case Cert(h, CertDone(Returned(c))) => c.Some? && ConfigFor(s.sh.obj, c.value, h)
            case Test(h, TestDone(Returned(c))) => c.Some? && ConfigFor(s.sh.obj, c.value, h)
            case _ => true
  {
    ReachableInv(s);
    assert ThreadFor(s.sh.obj, s.threads[t]);
  }

  /** A Config that has its names, as every published or returned one does, is never changed again. */
  lemma {:induction false} ConfigsAreImmutable(s: State, actions: seq<Action>, t: State, c: nat, h: Host)
    requires Inv(s) && Run(s, actions, t) && ConfigFor(s.sh.obj, c, h)
    ensures ConfigFor(t.sh.obj, c, h) && t.sh.obj.configs[c] == s.sh.obj.configs[c]
    decreases |actions|
  {
    if actions != [] {
      AnyStep(s, actions[0]);
      if actions[0].Go? {
        OneStep(s, actions[0].t, actions[0].id, actions[0].a);
      }
      ConfigsAreImmutable(Apply(s, actions[0]), actions[1..], t, c, h);
    }
  }

  // ----- lock order -----

  predicate WantsCertmu(th: Thread) {
    match th
    case Cert(_, pc) => pc.WantRead? || pc.WantWrite?
    case Flush(_, pc) => pc.FlushWant?
    case Test(_, pc) => pc.TestWant?
  }

  /** t cannot go on before u gives up a lock. */
  predicate WaitsFor(s: State, t: Tid, u: Tid) {
    && t in s.threads && u in s.threads
    && var th := s.threads[t];
       || (th.Cert? && th.cert.WantInfo? && th.cert.info in s.sh.mu.holder && s.sh.mu.holder[th.cert.info] == Some(u))
       || (WantsCertmu(th) && s.sh.mu.writer == Some(u))
       || (IsDraining(th) && u in s.sh.mu.readers)
  }

  /** Host locks are asked for first and with empty hands, then certmu, then its readers are waited for. */
  function Level(th: Thread): nat {
    if th.Cert? && th.cert.WantInfo? then 3
    else if WantsCertmu(th) then 2
    else if IsDraining(th) then 1
    else 0
  }

  /** A thread never waits for a host lock while it holds one or has any part of certmu. */
  lemma EmptyHandedWaiters(s: State, t: Tid, i: nat)
    requires Reachable(s) && t in s.threads && s.threads[t].Cert? && s.threads[t].cert.WantInfo? && i in s.sh.mu.holder
    ensures s.sh.mu.holder[i] != Some(t) && s.sh.mu.writer != Some(t) && t !in s.sh.mu.readers
  {
    ReachableInv(s);
    assert LocksOf(s.sh.mu, t, s.threads[t]);
  }

  /** No thread holds two host locks. */
  lemma OneHostLock(s: State, t: Tid, i: nat, j: nat)
    requires Reachable(s) && i in s.sh.mu.holder && j in s.sh.mu.holder
    requires s.sh.mu.holder[i] == Some(t) && s.sh.mu.holder[j] == Some(t)
    ensures i == j
  {
    ReachableInv(s);
    assert LocksOf(s.sh.mu, t, s.threads[t]);
  }

  lemma WaitsGoDown(s: State, t: Tid, u: Tid)
    requires Inv(s) && WaitsFor(s, t, u)
    ensures Level(s.threads[u]) < Level(s.threads[t])
  {
    assert LocksOf(s.sh.mu, t, s.threads[t]) && LocksOf(s.sh.mu, u, s.threads[u]);
  }

  predicate WaitPath(s: State, p: seq<Tid>) {
    forall k :: 0 <= k < |p| - 1 ==> WaitsFor(s, p[k], p[k + 1])
  }

  lemma {:induction false} PathsGoDown(s: State, p: seq<Tid>)
    requires Inv(s) && WaitPath(s, p) && |p| >= 2
    ensures p[0] in s.threads && p[|p| - 1] in s.threads
    ensures Level(s.threads[p[|p| - 1]]) + |p| - 1 <= Level(s.threads[p[0]])
    decreases |p|
  {
    assert WaitsFor(s, p[0], p[0 + 1]);
    WaitsGoDown(s, p[0], p[1]);
    if |p| > 2 {
      assert WaitPath(s, p[1..]) by {
        forall k | 0 <= k < |p[1..]| - 1 ensures WaitsFor(s, p[1..][k], p[1..][k + 1]) {
          assert WaitsFor(s, p[k + 1], p[k + 1 + 1]);
        }
      }
      PathsGoDown(s, p[1..]);
    }
  }

  /** The waits-for relation is acyclic: a chain of waits has at most three links and does not come back. */
  lemma NoDeadlockCycle(s: State, p: seq<Tid>)
    requires Reachable(s) && WaitPath(s, p) && |p| >= 2
    ensures p[0] != p[|p| - 1] && |p| <= 4
  {
    ReachableInv(s);
    PathsGoDown(s, p);
  }

  predicate Done(th: Thread) {
    match th
    case Cert(_, pc) => pc.CertDone?
    case Flush(_, pc) => pc.FlushDone?
    case Test(_, pc) => pc.TestDone?
  }

  ghost predicate CanGo(s: State, t: Tid) {
    exists id, a :: Enabled(s, Go(t, id, a))
  }

  /** An id no object has. */
  lemma {:induction false} FreshId(used: set<nat>) returns (n: nat)
    ensures forall k :: k in used ==> k < n
    decreases |used|
  {
    if used == {} {
      n := 0;
    } else {
      var k :| k in used;
      var m := FreshId(used - {k});
      n := if k < m then m else k + 1;
      forall j | j in used ensures j < n {
        assert j == k || j in used - {k};
      }
    }
  }

  /** Why a thread cannot go on. */
  predicate Stuck(m: Mutexes, th: Thread) {
    || (th.Cert? && th.cert.WantInfo? && th.cert.info in m.holder && m.holder[th.cert.info].Some?)
    || (WantsCertmu(th) && m.writer.Some?)
    || (IsDraining(th) && m.readers != {})
  }

  lemma CertGoesOrStuck(s: Shared, h: Host, pc: CertPc, id: nat)
    requires InfoExists(s, pc) && Unallocated(s, id) && id !in s.obj.configs && !pc.CertDone?
    ensures CertEnabled(s, pc, id, Good) || Stuck(s.mu, Cert(h, pc))
  {
  }

  lemma GoesOrStuck(s: Shared, t: Tid, th: Thread, id: nat)
    requires Ready(s, t, th) && Unallocated(s, id) && id !in s.obj.configs && !Done(th)
    ensures ThreadEnabled(s, th, id, Good) || Stuck(s.mu, th)
  {
    match th
    case Cert(h, pc) =>
      assert InfoExists(s, pc);
      CertGoesOrStuck(s, h, pc, id);
    case Flush(_, _) =>
    case Test(_, _) =>
  }

  lemma GoesOrWaits(s: State, t: Tid) returns (u: Tid)
    requires Inv(s) && t in s.threads && !Done(s.threads[t])
    ensures CanGo(s, t) || WaitsFor(s, t, u)
  {
    var th := s.threads[t];
    var id := FreshId(s.sh.obj.hostOf.Keys + s.sh.obj.configs.Keys);
    GoesOrStuck(s.sh, t, th, id);
    u := t;
    if ThreadEnabled(s.sh, th, id, Good) {
      assert Enabled(s, Go(t, id, Good));
    } else if th.Cert? && th.cert.WantInfo? {
      u := s.sh.mu.holder[th.cert.info].value;
    } else if IsDraining(th) {
      u :| u in s.sh.mu.readers;
    } else {
      u := s.sh.mu.writer.value;
    }
  }

  /** Somebody always moves: every unfinished call can step or waits, at the end of a chain, for one that can. */
  lemma {:induction false} Unblocked(s: State, t: Tid) returns (p: seq<Tid>)
    requires Reachable(s) && t in s.threads && !Done(s.threads[t])
    ensures p != [] && p[0] == t && WaitPath(s, p) && CanGo(s, p[|p| - 1])
    decreases Level(s.threads[t])
  {
    ReachableInv(s);
    var u := GoesOrWaits(s, t);
    if CanGo(s, t) {
      p := [t];
    } else {
      WaitsGoDown(s, t, u);
      assert LocksOf(s.sh.mu, u, s.threads[u]);
      var q := Unblocked(s, u);
      p := [t] + q;
      forall k | 0 <= k < |p| - 1 ensures WaitsFor(s, p[k], p[k + 1]) {
        if k > 0 {
          assert WaitsFor(s, q[k - 1], q[k - 1 + 1]);
        }
      }
    }
  }

  // ----- re-verification -----

  /** The call is publishing after c failed its re-verification; `bad` is the verdict on the upstream chain. */
  predicate Publishing(pc: CertPc, c: nat, bad: bool) {
    (pc.WantWrite? || pc.Draining? || pc.Stamping?) && pc.stale == Some(c) && pc.bad == bad
  }

  /** The call returns c exactly when the upstream was not bad. */
  predicate ResultIs(r: Result, c: nat, bad: bool) { r.Returned? && (r.config == Some(c) <==> !bad) }

  predicate Republishing(pc: CertPc, c: nat, bad: bool) {
    || Publishing(pc, c, bad)
    || (match pc
        case Building(_, d) => bad && c != d
        case Built(_, d) => bad && c != d
        case Assigned(_, d) => bad && c != d
        case WriteUnlock(_, r) => ResultIs(r, c, bad)
        case InfoUnlock(_, r) => ResultIs(r, c, bad)
        case CertDone(r) => ResultIs(r, c, bad)
        case _ => false)
  }

  lemma OwnStep(s: Shared, t: Tid, h: Host, pc: CertPc, id: nat, c: nat, bad: bool)
    requires PublishEnabled(s, pc, id) && Republishing(pc, c, bad) && CertFor(s.obj, h, pc) && c in s.obj.configs
    ensures Republishing(PublishApply(s, t, h, pc, id).1, c, bad)
  {
  }

  predicate Following(s: State, t: Tid, h: Host, c: nat, bad: bool) {
    t in s.threads && s.threads[t].Cert? && s.threads[t].host == h && Republishing(s.threads[t].cert, c, bad)
    && c in s.sh.obj.configs
  }

  lemma ThreadInv(s: State, t: Tid)
    requires Inv(s) && t in s.threads
    ensures Heap(s.sh.obj) && ThreadFor(s.sh.obj, s.threads[t])
  {
  }

  lemma StaleIsKnown(o: Objects, h: Host, pc: CertPc, c: nat, bad: bool)
    requires Heap(o) && CertFor(o, h, pc) && Publishing(pc, c, bad)
    ensures c in o.configs
  {
  }

  lemma StartFollowing(s: State, t: Tid, h: Host, pc: CertPc, c: nat, bad: bool)
    requires t in s.threads && s.threads[t] == Cert(h, pc) && Publishing(pc, c, bad)
    requires Heap(s.sh.obj) && CertFor(s.sh.obj, h, pc)
    ensures Following(s, t, h, c, bad)
  {
    StaleIsKnown(s.sh.obj, h, pc, c, bad);
  }

  lemma FollowStep(s: State, a: Action, t: Tid, h: Host, c: nat, bad: bool)
    requires Inv(s) && Enabled(s, a) && Following(s, t, h, c, bad)
    ensures Following(Apply(s, a), t, h, c, bad)
  {
    if a.Go? {
      OneStep(s, a.t, a.id, a.a);
      if a.t == t {
        assert ThreadFor(s.sh.obj, s.threads[t]);
        OwnStep(s.sh, t, h, s.threads[t].cert, a.id, c, bad);
      }
    }
  }

  lemma {:induction false} FollowRun(s: State, actions: seq<Action>, z: State, t: Tid, h: Host, c: nat, bad: bool)
    requires Inv(s) && Run(s, actions, z) && Following(s, t, h, c, bad)
    ensures Following(z, t, h, c, bad)
    decreases |actions|
  {
    if actions != [] {
      AnyStep(s, actions[0]);
      FollowStep(s, actions[0], t, h, c, bad);
      FollowRun(Apply(s, actions[0]), actions[1..], z, t, h, c, bad);
    }
  }

  lemma FollowFromStart(s: State, actions: seq<Action>, z: State, t: Tid, h: Host, pc: CertPc, c: nat, bad: bool)
    requires Inv(s) && Run(s, actions, z)
    requires t in s.threads && s.threads[t] == Cert(h, pc) && Publishing(pc, c, bad)
    ensures Following(z, t, h, c, bad)
  {
    ThreadInv(s, t);
    StartFollowing(s, t, h, pc, c, bad);
    FollowRun(s, actions, z, t, h, c, bad);
  }

  lemma FollowedResult(z: State, t: Tid, h: Host, c: nat, bad: bool, r: Result)
    requires Following(z, t, h, c, bad) && z.threads[t] == Cert(h, CertDone(r))
    ensures ResultIs(r, c, bad)
  {
  }

  /**
   * When the cached Config c fails its re-verification and the call goes on to publish, Cert hands
   * out that same Config again exactly when the upstream chain was not found bad.
   */
  lemma FailedConfigKeptUnlessUpstreamBad(s: State, actions: seq<Action>, z: State, t: Tid, h: Host, pc: CertPc,
                                          c: nat, bad: bool, r: Result)
    requires Reachable(s) && Run(s, actions, z)
    requires t in s.threads && s.threads[t] == Cert(h, pc) && Publishing(pc, c, bad)
    requires t in z.threads && z.threads[t] == Cert(h, CertDone(r))
    ensures r.Returned? && (r.config == Some(c) <==> !bad)
  {
    ReachableInv(s);
    FollowFromStart(s, actions, z, t, h, pc, c, bad);
    FollowedResult(z, t, h, c, bad, r);
  }
}
