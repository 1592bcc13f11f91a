/**
 * What a whole call of the certificate cache answers.  A `Story` of a call of `Cert` is told from what the
 * call finds at its own steps: the table at the lookup, the entry once it is locked, the clock, and the
 * answers of the code that is not modelled.
 */
module CertCacheAnswers {
  import opened Basics
  import opened CertCache
  import opened CertCacheSafety
  import opened CertCacheTheorems

  // ----- the story of a call -----

  /** `bound`: the entry at the lookup; `due`, `held`: at the check of a found entry, an hour is over, and its Config;
      `good`: it verified; `bad`: the upstream chain is bad; `made`: the new Config; `stamp`, `retry`: the times set. */
  datatype Story = Story(bound: Option<nat>, due: bool, held: Option<nat>, good: bool, bad: bool, failed: bool,
                         made: Option<nat>, stamp: Option<int>, retry: Option<int>)

  const BEGIN := Story(None, false, None, false, false, false, None, None, None)

  /** A new Config is called for: the host was not in the table, or its chain is bad. */
  predicate New(k: Story) { k.bound.None? || k.bad }

  function Verdict(k: Story): Result {
    if k.failed then Error
    else if k.bound.Some? && (!k.due || k.good) then Returned(k.held)
    else if New(k) then Returned(k.made)
    else Returned(k.held)
  }

  function TellCert(s: Shared, h: Host, pc: CertPc, id: nat, a: Answer, k: Story): Story
    requires InfoExists(s, pc)
  {
    match pc
    case Looking => k.(bound := if h in s.obj.table then Some(s.obj.table[h]) else None)
    case Checking(i, _) =>
      if k.bound.None? then k
      else k.(due := s.times.lastVerify[i] < s.times.now - 60, held := s.obj.configOf[i])
    case Verifying(i) => if a == Good then k.(good := true, stamp := Some(s.times.now)) else k
    case Fetching(i, _) =>
      if h in s.local || s.times.nextAttempt[i] >= s.times.now then k
      else if a == Failed then k.(failed := true)
      else if a == Bad && s.times.lastVerify[i] < s.times.now - 60 then
        k.(bad := true, retry := Some(s.times.now + 24 * 60))
      else k
    case Creating(_, _, _) => if a == Failed then k.(failed := true) else k
    case Stamping(_, _, _) => k.(stamp := Some(s.times.now), made := if New(k) then Some(id) else k.made)
    case _ => k
  }

  function Tell(s: State, t: Tid, k: Story, a: Action): Story
    requires Enabled(s, a)
  {
    if a.Go? && a.t == t && s.threads[t].Cert? && InfoExists(s.sh, s.threads[t].cert) then
      TellCert(s.sh, s.threads[t].host, s.threads[t].cert, a.id, a.a, k)
    else k
  }

  /** The story of thread t's call over a run that starts in s. */
  function StoryOf(s: State, actions: seq<Action>, t: Tid, k: Story): Story
    decreases |actions|
  {
    if actions == [] || !Enabled(s, actions[0]) then k
    else StoryOf(Apply(s, actions[0]), actions[1..], t, Tell(s, t, k, actions[0]))
  }

  // ----- the call is where its story has it -----

  predicate Untold(k: Story) {
    !k.good && !k.bad && !k.failed && k.made.None? && k.stamp.None? && k.retry.None?
  }

  /** Until the entry is locked: what the lookup found. */
  predicate LookedUp(k: Story, found: bool, i: nat) {
    Untold(k) && !k.due && (found <==> k.bound.Some?) && (found ==> k.bound == Some(i))
  }

  /** The entry is locked, and its Config is the one held; an entry that was found is due. */
  predicate Holding(s: Shared, k: Story, i: nat, stale: Option<nat>) {
    && !k.good && !k.failed && i in s.obj.configOf
    && (if k.bound.None? then stale.None?
        else k.bound == Some(i) && k.due && k.held == s.obj.configOf[i] && stale == k.held && stale.Some?)
  }

  predicate TimesSet(s: Shared, k: Story, i: nat) {
    && (k.stamp.Some? ==> i in s.times.lastVerify && s.times.lastVerify[i] == k.stamp.value)
    && (k.retry.Some? ==> i in s.times.nextAttempt && s.times.nextAttempt[i] == k.retry.value)
  }

  predicate Unpublished(k: Story) { k.made.None? && k.stamp.None? }

  /** The table has the new Config for h. */
  predicate BoundTo(s: Shared, h: Host, i: nat, made: Option<nat>) {
    h in s.obj.table && s.obj.table[h] == i && i in s.obj.configOf && s.obj.configOf[i] == made
  }

  predicate SearchIs(s: Shared, pc: CertPc, k: Story) {
    match pc
    case WantRead => k == BEGIN
    case Looking => k == BEGIN
    case Unlocking(entry) => Untold(k) && !k.due && entry == k.bound
    case Allocating => Untold(k) && !k.due && k.bound.None?
    case WantInfo(i, found) => LookedUp(k, found, i)
    case Checking(i, found) => LookedUp(k, found, i)
    case Verifying(i) => Untold(k) && k.bound.Some? && i in s.obj.configOf && Holding(s, k, i, s.obj.configOf[i])
    case Fetching(i, stale) => Untold(k) && Holding(s, k, i, stale)
    case Creating(i, stale, bad) => Holding(s, k, i, stale) && Unpublished(k) && bad == k.bad && TimesSet(s, k, i)
    case _ => true
  }

  /** c is a Config with, or without, the limits on versions and renegotiation. */
  predicate Limits(s: Shared, c: Option<nat>, limited: bool) {
    c.Some? && c.value in s.obj.configs && s.obj.configs[c.value].limited == limited
  }

  predicate Making(k: Story, c: nat) {
    New(k) && k.made == Some(c) && !k.failed && !k.good && k.stamp.Some? && (k.bound.Some? ==> k.due)
  }

  predicate PublishIs(s: Shared, h: Host, pc: CertPc, k: Story) {
    match pc
    case WantWrite(i, stale, bad) => Holding(s, k, i, stale) && Unpublished(k) && bad == k.bad && TimesSet(s, k, i)
    case Draining(i, stale, bad) => Holding(s, k, i, stale) && Unpublished(k) && bad == k.bad && TimesSet(s, k, i)
    case Stamping(i, stale, bad) => Holding(s, k, i, stale) && Unpublished(k) && bad == k.bad && TimesSet(s, k, i)
    case Building(i, c) => Making(k, c) && TimesSet(s, k, i)
    case Built(i, c) => Making(k, c) && TimesSet(s, k, i) && Limits(s, k.made, true)
    case Assigned(i, c) =>
      && Making(k, c) && TimesSet(s, k, i) && Limits(s, k.made, true)
      && i in s.obj.configOf && s.obj.configOf[i] == Some(c)
    case WriteUnlock(i, r) =>
      && r == Verdict(k) && TimesSet(s, k, i) && k.stamp.Some?
      && (New(k) ==> BoundTo(s, h, i, k.made) && Limits(s, k.made, true) && r == Returned(k.made))
    case InfoUnlock(i, r) => r == Verdict(k) && TimesSet(s, k, i)
    case CertDone(r) => r == Verdict(k)
    case _ => true
  }

  predicate CallIs(s: Shared, h: Host, pc: CertPc, k: Story) { SearchIs(s, pc, k) && PublishIs(s, h, pc, k) }

  lemma SearchTold(s: Shared, t: Tid, h: Host, pc: CertPc, id: nat, a: Answer, k: Story)
    requires SearchEnabled(s, pc, id, a) && Heap(s.obj) && CertFor(s.obj, h, pc) && CallIs(s, h, pc, k)
    ensures var (r, next) := SearchApply(s, t, h, pc, id, a); CallIs(r, h, next, TellCert(s, h, pc, id, a, k))
  {
  }

  lemma PublishTold(s: Shared, t: Tid, h: Host, pc: CertPc, id: nat, a: Answer, k: Story)
    requires PublishEnabled(s, pc, id) && CallIs(s, h, pc, k)
    ensures var (r, next) := PublishApply(s, t, h, pc, id); CallIs(r, h, next, TellCert(s, h, pc, id, a, k))
  {
  }

  // ----- what the other threads leave alone -----

  /** The times of every HostInfo but one stay. */
  predicate SameTimesBut(s: Times, r: Times, mine: Option<nat>) {
    && (forall i :: i in s.lastVerify && mine != Some(i) ==> i in r.lastVerify && r.lastVerify[i] == s.lastVerify[i])
    && (forall i :: i in s.nextAttempt && mine != Some(i) ==>
          i in r.nextAttempt && r.nextAttempt[i] == s.nextAttempt[i])
  }

  lemma StepTimes(s: Shared, t: Tid, th: Thread, id: nat, a: Answer)
    requires ThreadEnabled(s, th, id, a)
    ensures SameTimesBut(s.times, ThreadApply(s, t, th, id, a).0.times, HeldInfo(th))
  {
  }

  /** A step leaves the table alone but for the thread's own host. */
  lemma StepTable(s: Shared, t: Tid, th: Thread, id: nat, a: Answer, g: Host)
    requires ThreadEnabled(s, th, id, a) && g != th.host
    ensures var r := ThreadApply(s, t, th, id, a).0;
            (g in r.obj.table <==> g in s.obj.table) && (g in s.obj.table ==> r.obj.table[g] == s.obj.table[g])
  {
  }

  /** What a call keeps when another thread moves. */
  lemma OtherCall(s: Shared, r: Shared, h: Host, pc: CertPc, k: Story)
    requires CallIs(s, h, pc, k) && (HasSlot(Cert(h, pc)) ==> SameConfigs(s.obj, r.obj))
    requires var i := HeldInfo(Cert(h, pc));
             i.Some? ==>
               && (i.value in s.obj.configOf ==>
                     i.value in r.obj.configOf && r.obj.configOf[i.value] == s.obj.configOf[i.value])
               && (i.value in s.times.lastVerify ==>
                     i.value in r.times.lastVerify && r.times.lastVerify[i.value] == s.times.lastVerify[i.value])
               && (i.value in s.times.nextAttempt ==>
                     i.value in r.times.nextAttempt && r.times.nextAttempt[i.value] == s.times.nextAttempt[i.value])
    ensures CallIs(r, h, pc, k)
  {
  }

  /** Thread t is in a call of Cert for h that is where k has it. */
  predicate Following(s: State, t: Tid, h: Host, k: Story) {
    t in s.threads && s.threads[t].Cert? && s.threads[t].host == h && CallIs(s.sh, h, s.threads[t].cert, k)
  }

  lemma OwnCallStep(s: State, a: Action, t: Tid, h: Host, k: Story)
    requires Inv(s) && Enabled(s, a) && Following(s, t, h, k) && a.Go? && a.t == t
    ensures Following(Apply(s, a), t, h, Tell(s, t, k, a))
  {
    var pc := s.threads[t].cert;
    assert ThreadFor(s.sh.obj, s.threads[t]);
    if Searching(pc) {
      SearchTold(s.sh, t, h, pc, a.id, a.a, k);
    } else {
      PublishTold(s.sh, t, h, pc, a.id, a.a, k);
    }
  }

  lemma OtherCallStep(s: State, a: Action, t: Tid, h: Host, k: Story)
    requires Inv(s) && Enabled(s, a) && Following(s, t, h, k) && a.Go? && a.t != t
    ensures Following(Apply(s, a), t, h, k)
  {
    var u := a.t;
    OneStep(s, u, a.id, a.a);
    StepTimes(s.sh, u, s.threads[u], a.id, a.a);
    assert LocksOf(s.sh.mu, t, s.threads[t]) && LocksOf(s.sh.mu, u, s.threads[u]);
    OtherCall(s.sh, Apply(s, a).sh, h, s.threads[t].cert, k);
  }

  lemma CallStep(s: State, a: Action, t: Tid, h: Host, k: Story)
    requires Inv(s) && Enabled(s, a) && Following(s, t, h, k)
    ensures Following(Apply(s, a), t, h, Tell(s, t, k, a))
  {
    if a.Go? && a.t == t {
      OwnCallStep(s, a, t, h, k);
    } else if a.Go? {
      OtherCallStep(s, a, t, h, k);
    } else {
      OtherCall(s.sh, Apply(s, a).sh, h, s.threads[t].cert, k);
    }
  }

  lemma {:induction false} CallRun(s: State, actions: seq<Action>, z: State, t: Tid, h: Host, k: Story)
    requires Inv(s) && Run(s, actions, z) && Following(s, t, h, k)
    ensures Inv(z) && Following(z, t, h, StoryOf(s, actions, t, k))
    decreases |actions|
  {
    if actions != [] {
      AnyStep(s, actions[0]);
      CallStep(s, actions[0], t, h, k);
      CallRun(Apply(s, actions[0]), actions[1..], z, t, h, Tell(s, t, k, actions[0]));
    }
  }

  /** A call of Cert returns what its story has: an error, the Config of the entry it found, or the new one. */
  lemma CallAnswers(s: State, actions: seq<Action>, z: State, t: Tid, h: Host, r: Result)
    requires Reachable(s) && Run(s, actions, z) && t in s.threads && s.threads[t] == Cert(h, WantRead)
    requires t in z.threads && z.threads[t] == Cert(h, CertDone(r))
    ensures r == Verdict(StoryOf(s, actions, t, BEGIN))
  {
    ReachableInv(s);
    CallRun(s, actions, z, t, h, BEGIN);
  }

  // ----- in closed form -----

  /** The call has its answer. */
  predicate Answered(pc: CertPc, r: Result) {
    match pc
    case WriteUnlock(_, q) => q == r
    case InfoUnlock(_, q) => q == r
    case CertDone(q) => q == r
    case _ => false
  }

  lemma {:induction false} AnswerStays(s: State, actions: seq<Action>, z: State, t: Tid, h: Host, pc: CertPc, r: Result)
    requires Run(s, actions, z) && t in s.threads && s.threads[t] == Cert(h, pc) && Answered(pc, r)
    ensures t in z.threads && z.threads[t].Cert? && Answered(z.threads[t].cert, r)
    decreases |actions|
  {
    if actions != [] {
      var m := Apply(s, actions[0]);
      assert t in m.threads && m.threads[t].Cert? && m.threads[t].host == h && Answered(m.threads[t].cert, r);
      AnswerStays(m, actions[1..], z, t, h, m.threads[t].cert, r);
    }
  }

  /** An entry that is found with Config c, and that was verified within the hour, is answered with c, whatever the
      other threads do; the step that decides it changes no object. */
  lemma FreshIsReturned(m: State, a: Action, actions: seq<Action>, z: State, t: Tid, h: Host, i: nat, c: nat, r: Result)
    requires t in m.threads && m.threads[t] == Cert(h, Checking(i, true)) && a.Go? && a.t == t && Enabled(m, a)
    requires m.sh.obj.configOf[i] == Some(c) && m.sh.times.lastVerify[i] >= m.sh.times.now - 60
    requires Run(Apply(m, a), actions, z) && t in z.threads && z.threads[t] == Cert(h, CertDone(r))
    ensures r == Returned(Some(c)) && Apply(m, a).sh == m.sh
  {
    AnswerStays(Apply(m, a), actions, z, t, h, InfoUnlock(i, Returned(Some(c))), Returned(Some(c)));
  }

  /** An entry that is due and verifies is answered with the same Config, and has a new time stamp. */
  lemma VerifiedIsReturned(m: State, a: Action, actions: seq<Action>, z: State, t: Tid, h: Host, i: nat, c: nat,
                           r: Result)
    requires Reachable(m) && t in m.threads && m.threads[t] == Cert(h, Verifying(i))
    requires a.Go? && a.t == t && a.a == Good && Enabled(m, a) && m.sh.obj.configOf[i] == Some(c)
    requires Run(Apply(m, a), actions, z) && t in z.threads && z.threads[t] == Cert(h, CertDone(r))
    ensures r == Returned(Some(c)) && Apply(m, a).sh.obj == m.sh.obj
    ensures Apply(m, a).sh.times == m.sh.times.(lastVerify := m.sh.times.lastVerify[i := m.sh.times.now])
  {
    ReachableInv(m);
    assert ThreadFor(m.sh.obj, m.threads[t]);
    AnswerStays(Apply(m, a), actions, z, t, h, InfoUnlock(i, Returned(Some(c))), Returned(Some(c)));
  }

  /** What a call that runs alone has come to when its host is cached and fresh. */
  predicate Hit(s: Shared, r: Shared, pc: CertPc, i: nat, c: nat) {
    && r.obj == s.obj && r.times == s.times
    && match pc
       case WantRead => true
       case Looking => true
       case Unlocking(entry) => entry == Some(i)
       case WantInfo(j, found) => j == i && found
       case Checking(j, found) => j == i && found
       case InfoUnlock(_, q) => q == Returned(Some(c))
       case CertDone(q) => q == Returned(Some(c))
       case _ => false
  }

  lemma {:induction false} HitRun(s: Shared, m: State, actions: seq<Action>, z: State, t: Tid, h: Host, i: nat, c: nat)
    requires h in s.obj.table && s.obj.table[h] == i && i in s.obj.configOf && s.obj.configOf[i] == Some(c)
    requires i in s.times.lastVerify && s.times.lastVerify[i] >= s.times.now - 60
    requires Run(m, actions, z) && (forall a :: a in actions ==> a.Go? && a.t == t)
    requires t in m.threads && m.threads[t].Cert? && m.threads[t].host == h && Hit(s, m.sh, m.threads[t].cert, i, c)
    ensures t in z.threads && z.threads[t].Cert? && Hit(s, z.sh, z.threads[t].cert, i, c)
    decreases |actions|
  {
    if actions != [] {
      assert actions[0] in actions;
      HitRun(s, Apply(m, actions[0]), actions[1..], z, t, h, i, c);
    }
  }

  /** A call that runs alone for a host that is cached and was verified within the hour: the cached Config comes
      back, and neither the table, nor any HostInfo or Config, nor any time stamp has changed. */
  lemma CacheIsUsed(s: State, actions: seq<Action>, z: State, t: Tid, h: Host, i: nat, c: nat, r: Result)
    requires Run(s, actions, z) && forall a :: a in actions ==> a.Go? && a.t == t
    requires t in s.threads && s.threads[t] == Cert(h, WantRead)
    requires t in z.threads && z.threads[t] == Cert(h, CertDone(r))
    requires BoundTo(s.sh, h, i, Some(c)) && i in s.sh.times.lastVerify
    requires s.sh.times.lastVerify[i] >= s.sh.times.now - 60
    ensures r == Returned(Some(c)) && z.sh.obj == s.sh.obj && z.sh.times == s.sh.times
  {
    HitRun(s.sh, s, actions, z, t, h, i, c);
  }

  // ----- when a new Config is made, and where it goes -----

  predicate PastLookup(pc: CertPc) { !pc.WantRead? && !pc.Looking? }

  lemma NewTold(s: Shared, t: Tid, h: Host, pc: CertPc, id: nat, a: Answer, k: Story)
    requires CertEnabled(s, pc, id, a) && CallIs(s, h, pc, k) && PastLookup(pc) && New(k)
    ensures New(TellCert(s, h, pc, id, a, k)) && PastLookup(CertApply(s, t, h, pc, id, a).1)
  {
  }

  lemma ChangesOnlyForNew(s: Shared, t: Tid, h: Host, pc: CertPc, id: nat, a: Answer, k: Story)
    requires CertEnabled(s, pc, id, a) && CallIs(s, h, pc, k) && CertApply(s, t, h, pc, id, a).0.obj != s.obj
    ensures New(TellCert(s, h, pc, id, a, k)) && PastLookup(CertApply(s, t, h, pc, id, a).1)
  {
  }

  lemma {:induction false} NewStays(s: State, actions: seq<Action>, z: State, t: Tid, h: Host, k: Story)
    requires Inv(s) && Run(s, actions, z) && Following(s, t, h, k) && PastLookup(s.threads[t].cert) && New(k)
    ensures New(StoryOf(s, actions, t, k))
    decreases |actions|
  {
    if actions != [] {
      AnyStep(s, actions[0]);
      CallStep(s, actions[0], t, h, k);
      if actions[0].Go? && actions[0].t == t {
        NewTold(s.sh, t, h, s.threads[t].cert, actions[0].id, actions[0].a, k);
      }
      NewStays(Apply(s, actions[0]), actions[1..], z, t, h, Tell(s, t, k, actions[0]));
    }
  }

  /** No step of thread t itself changes the table, a HostInfo or a Config. */
  ghost predicate OwnStepsKeep(s: State, actions: seq<Action>, t: Tid)
    decreases |actions|
  {
    actions == [] || !Enabled(s, actions[0])
    || ((actions[0].Go? && actions[0].t == t ==> Apply(s, actions[0]).sh.obj == s.sh.obj)
        && OwnStepsKeep(Apply(s, actions[0]), actions[1..], t))
  }

  lemma {:induction false} KeepsUnlessNew(s: State, actions: seq<Action>, z: State, t: Tid, h: Host, k: Story)
    requires Inv(s) && Run(s, actions, z) && Following(s, t, h, k) && !New(StoryOf(s, actions, t, k))
    ensures OwnStepsKeep(s, actions, t)
    decreases |actions|
  {
    if actions != [] {
      var a, m, l := actions[0], Apply(s, actions[0]), Tell(s, t, k, actions[0]);
      AnyStep(s, a);
      CallStep(s, a, t, h, k);
      if a.Go? && a.t == t && m.sh.obj != s.sh.obj {
        ChangesOnlyForNew(s.sh, t, h, s.threads[t].cert, a.id, a.a, k);
        NewStays(m, actions[1..], z, t, h, l);
      }
      KeepsUnlessNew(m, actions[1..], z, t, h, l);
    }
  }

  /** Only a host that was not in the table, or a bad chain, makes a call change the table or any object. */
  lemma OnlyNewChangesObjects(s: State, actions: seq<Action>, z: State, t: Tid, h: Host)
    requires Reachable(s) && Run(s, actions, z) && t in s.threads && s.threads[t] == Cert(h, WantRead)
    requires !New(StoryOf(s, actions, t, BEGIN))
    ensures OwnStepsKeep(s, actions, t)
  {
    ReachableInv(s);
    KeepsUnlessNew(s, actions, z, t, h, BEGIN);
  }

  lemma BoundAtUnlock(m: Shared, h: Host, i: nat, r: Result, k: Story)
    requires CallIs(m, h, WriteUnlock(i, r), k) && New(k)
    ensures r == Returned(k.made) && BoundTo(m, h, i, k.made) && Limits(m, k.made, true)
    ensures k.stamp.Some? && TimesSet(m, k, i)
  {
  }

  /** When such a call gives back certmu, h is bound to the new Config, which is the one it returns. */
  lemma NewIsBound(s: State, actions: seq<Action>, m: State, t: Tid, h: Host, i: nat, r: Result)
    requires Reachable(s) && Run(s, actions, m) && t in s.threads && s.threads[t] == Cert(h, WantRead)
    requires t in m.threads && m.threads[t] == Cert(h, WriteUnlock(i, r)) && New(StoryOf(s, actions, t, BEGIN))
    ensures var k := StoryOf(s, actions, t, BEGIN);
            && r == Returned(k.made) && BoundTo(m.sh, h, i, k.made) && Limits(m.sh, k.made, true)
            && k.stamp.Some? && TimesSet(m.sh, k, i)
  {
    ReachableInv(s);
    CallRun(s, actions, m, t, h, BEGIN);
    BoundAtUnlock(m.sh, h, i, r, StoryOf(s, actions, t, BEGIN));
  }

  // ----- FlushCert and GetTestCertificate -----

  /** What the table has for a thread that is about to give back certmu. */
  predicate Settled(s: Shared, th: Thread) {
    match th
    case Flush(h, pc) => pc.FlushUnlock? ==> h !in s.obj.table
    case Test(h, pc) =>
      && (pc.TestBuilt? || pc.TestPublish? ==> Limits(s, Some(pc.config), false))
      && (pc.TestUnlock? && pc.result.Returned? ==>
            && h in s.obj.table && s.obj.table[h] in s.obj.configOf && Limits(s, pc.result.config, false)
            && s.obj.configOf[s.obj.table[h]] == pc.result.config)
    case Cert(_, _) => true
  }

  predicate AllSettled(s: State) { forall t {:trigger s.threads[t]} :: t in s.threads ==> Settled(s.sh, s.threads[t]) }

  lemma OwnSettled(s: Shared, t: Tid, th: Thread, id: nat, a: Answer)
    requires ThreadEnabled(s, th, id, a) && ThreadFor(s.obj, th) && Settled(s, th)
    ensures var (r, next) := ThreadApply(s, t, th, id, a); Settled(r, next)
  {
  }

  lemma OtherSettled(s: Shared, r: Shared, th: Thread)
    requires Settled(s, th) && (HasSlot(th) ==> SameConfigs(s.obj, r.obj))
    ensures Settled(r, th)
  {
  }

  lemma OtherSettledStep(s: State, a: Action, u: Tid)
    requires Inv(s) && Enabled(s, a) && a.Go? && u in s.threads && u != a.t && Settled(s.sh, s.threads[u])
    ensures Settled(Apply(s, a).sh, s.threads[u])
  {
    var r := ThreadApply(s.sh, a.t, s.threads[a.t], a.id, a.a).0;
    OneStep(s, a.t, a.id, a.a);
    assert LocksOf(s.sh.mu, a.t, s.threads[a.t]) && LocksOf(s.sh.mu, u, s.threads[u]);
    OtherSettled(s.sh, r, s.threads[u]);
  }

  lemma SettledStep(s: State, a: Action)
    requires Inv(s) && AllSettled(s) && Enabled(s, a)
    ensures AllSettled(Apply(s, a))
  {
    if a.Go? {
      assert ThreadFor(s.sh.obj, s.threads[a.t]) && Settled(s.sh, s.threads[a.t]);
      OwnSettled(s.sh, a.t, s.threads[a.t], a.id, a.a);
      forall u | u in s.threads && u != a.t ensures Settled(Apply(s, a).sh, s.threads[u]) {
        OtherSettledStep(s, a, u);
      }
    }
  }

  lemma {:induction false} SettledRun(s: State, actions: seq<Action>, z: State)
    requires Inv(s) && AllSettled(s) && Run(s, actions, z)
    ensures AllSettled(z)
    decreases |actions|
  {
    if actions != [] {
      AnyStep(s, actions[0]);
      SettledStep(s, actions[0]);
      SettledRun(Apply(s, actions[0]), actions[1..], z);
    }
  }

  /** When FlushCert gives back certmu its host is not in the table; when GetTestCertificate does, its host is
      bound to the Config it returns. */
  lemma FlushedIsGone(z: State, t: Tid)
    requires Reachable(z) && t in z.threads
    ensures match z.threads[t]
            case Flush(h, FlushUnlock) => h !in z.sh.obj.table
            case Test(h, TestUnlock(Returned(c))) =>
              h in z.sh.obj.table && BoundTo(z.sh, h, z.sh.obj.table[h], c) && Limits(z.sh, c, false)
            case _ => true
  {
    ReachableInv(z);
    var s, actions :| Init(s) && Run(s, actions, z);
    SettledRun(s, actions, z);
    assert Settled(z.sh, z.threads[t]);
  }

  /** No call changes what the table has for another host. */
  lemma {:induction false} OtherHostsStay(s: State, actions: seq<Action>, z: State, g: Host)
    requires Run(s, actions, z)
    requires forall t :: t in s.threads ==> s.threads[t].host != g
    requires forall a :: a in actions && a.Start? ==> a.host != g
    ensures (g in z.sh.obj.table <==> g in s.sh.obj.table)
    ensures g in s.sh.obj.table ==> z.sh.obj.table[g] == s.sh.obj.table[g]
    decreases |actions|
  {
    if actions != [] {
      var a := actions[0];
      assert a in actions;
      if a.Go? {
        StepTable(s.sh, a.t, s.threads[a.t], a.id, a.a, g);
      }
      OtherHostsStay(Apply(s, a), actions[1..], z, g);
    }
  }

  /** A call of GetTestCertificate that has the given fate. */
  predicate TestIs(pc: TestPc, made: Option<nat>) {
    match pc
    case TestBuilding(c) => made == Some(c)
    case TestBuilt(c) => made == Some(c)
    case TestPublish(c, _) => made == Some(c)
    case TestUnlock(r) => r == if made.Some? then Returned(made) else Error
    case TestDone(r) => r == if made.Some? then Returned(made) else Error
    case _ => false
  }

  lemma {:induction false} TestStays(s: State, actions: seq<Action>, z: State, t: Tid, h: Host, pc: TestPc,
                                     made: Option<nat>)
    requires Run(s, actions, z) && t in s.threads && s.threads[t] == Test(h, pc) && TestIs(pc, made)
    ensures t in z.threads && z.threads[t].Test? && TestIs(z.threads[t].test, made)
    decreases |actions|
  {
    if actions != [] {
      var m := Apply(s, actions[0]);
      assert t in m.threads && m.threads[t].Test? && m.threads[t].host == h && TestIs(m.threads[t].test, made);
      TestStays(m, actions[1..], z, t, h, m.threads[t].test, made);
    }
  }

  /** GetTestCertificate returns an error if the certificate cannot be created, and else the Config it makes. */
  lemma TestAnswers(m: State, a: Action, actions: seq<Action>, z: State, t: Tid, h: Host, r: Result)
    requires t in m.threads && m.threads[t] == Test(h, TestCreating) && a.Go? && a.t == t && Enabled(m, a)
    requires Run(Apply(m, a), actions, z) && t in z.threads && z.threads[t] == Test(h, TestDone(r))
    ensures a.a == Failed ==> r == Error && Apply(m, a).sh == m.sh
    ensures a.a != Failed ==> r == Returned(Some(a.id)) && a.id !in m.sh.obj.configs
  {
    var made := if a.a == Failed then None else Some(a.id);
    TestStays(Apply(m, a), actions, z, t, h, Apply(m, a).threads[t].test, made);
  }
}
