/** What the certificate cache keeps on every run: complete entries, immutable configs, ordered locks. */
module CertCacheSafety {
  import opened Basics
  import opened CertCache

  // ----- what the objects look like -----

  /** One certificate, for exactly h. */
  predicate ConfigFor(o: Objects, c: nat, h: Host) {
    && c in o.configs && o.configs[c].nameToCertificate.Keys == {h}
    && o.configs[c].certificates == [o.configs[c].nameToCertificate[h]]
  }

  predicate InfoFor(o: Objects, i: nat, h: Host) { i in o.hostOf && i in o.configOf && o.hostOf[i] == h }

  predicate Complete(o: Objects, i: nat, h: Host) { InfoFor(o, i, h) && o.configOf[i].Some? }

  predicate ResultFor(o: Objects, result: Result, h: Host) {
    result.Returned? ==> result.config.Some? && ConfigFor(o, result.config.value, h)
  }

  predicate StaleFor(o: Objects, i: nat, h: Host, stale: Option<nat>) {
    InfoFor(o, i, h) && (stale.Some? ==> o.configOf[i] == stale)
  }

  /** A tls.Config under construction is not yet reachable: it is still blank. */
  predicate Unnamed(o: Objects, c: nat) { c in o.configs && o.configs[c] == BLANK }

  predicate CertFor(o: Objects, h: Host, pc: CertPc) {
    match pc
    case WantRead => true
    case Looking => true
    case Unlocking(entry) => entry.Some? ==> Complete(o, entry.value, h)
    case Allocating => true
    case WantInfo(i, found) => InfoFor(o, i, h) && (found ==> Complete(o, i, h))
    case Checking(i, found) => InfoFor(o, i, h) && (found ==> Complete(o, i, h))
    case Verifying(i) => Complete(o, i, h)
    case Fetching(i, stale) => StaleFor(o, i, h, stale)
    case Creating(i, stale, _) => StaleFor(o, i, h, stale)
    case WantWrite(i, stale, _) => StaleFor(o, i, h, stale)
    case Draining(i, stale, _) => StaleFor(o, i, h, stale)
    case Stamping(i, stale, _) => StaleFor(o, i, h, stale)
    case Building(i, c) => InfoFor(o, i, h) && Unnamed(o, c)
    case Built(i, c) => InfoFor(o, i, h) && ConfigFor(o, c, h)
    case Assigned(i, c) => InfoFor(o, i, h) && ConfigFor(o, c, h) && o.configOf[i] == Some(c)
    case WriteUnlock(i, r) => InfoFor(o, i, h) && ResultFor(o, r, h)
    case InfoUnlock(i, r) => InfoFor(o, i, h) && ResultFor(o, r, h)
    case CertDone(r) => ResultFor(o, r, h)
  }

  predicate TestFor(o: Objects, h: Host, pc: TestPc) {
    match pc
    case TestWant => true
    case TestDraining => true
    case TestCreating => true
    case TestBuilding(c) => Unnamed(o, c)
    case TestBuilt(c) => ConfigFor(o, c, h)
    case TestPublish(c, i) => ConfigFor(o, c, h) && InfoFor(o, i, h) && o.configOf[i] == Some(c)
    case TestUnlock(r) => ResultFor(o, r, h)
    case TestDone(r) => ResultFor(o, r, h)
  }

  predicate ThreadFor(o: Objects, th: Thread) {
    match th
    case Cert(h, pc) => CertFor(o, h, pc)
    case Flush(_, _) => true
    case Test(h, pc) => TestFor(o, h, pc)
  }

  /** Every entry of the table is complete, and every Config is one for exactly the host of its HostInfo. */
  predicate Heap(o: Objects) {
    && (forall h :: h in o.table ==> Complete(o, o.table[h], h))
    && (forall i :: i in o.configOf && o.configOf[i].Some? ==>
          i in o.hostOf && ConfigFor(o, o.configOf[i].value, o.hostOf[i]))
  }

  // ----- who holds what -----

  function HeldInfo(th: Thread): Option<nat> {
    if th.Cert? && !th.cert.WantInfo? then InfoOf(th.cert) else None
  }

  /** The thread has certmu's writer slot; it is inside once the readers have left. */
  predicate HasSlot(th: Thread) {
    match th
    case Cert(_, pc) => pc.Draining? || pc.Stamping? || pc.Building? || pc.Built? || pc.Assigned? || pc.WriteUnlock?
    case Flush(_, pc) => pc.FlushDraining? || pc.Deleting? || pc.FlushUnlock?
    case Test(_, pc) => !pc.TestWant? && !pc.TestDone?
  }

  predicate IsDraining(th: Thread) {
    match th
    case Cert(_, pc) => pc.Draining?
    case Flush(_, pc) => pc.FlushDraining?
    case Test(_, pc) => pc.TestDraining?
  }

  predicate IsReading(th: Thread) { th.Cert? && (th.cert.Looking? || th.cert.Unlocking?) }

  /** The fields of every HostInfo exist together. */
  predicate SameKeys(s: Shared) {
    && s.obj.hostOf.Keys == s.obj.configOf.Keys == s.mu.holder.Keys
    && s.times.lastVerify.Keys == s.times.nextAttempt.Keys == s.mu.holder.Keys
  }

  /** What certmu says about thread t, and the other way round. */
  predicate CertmuOf(m: Mutexes, t: Tid, th: Thread) {
    && (m.writer == Some(t) <==> HasSlot(th))
    && (t in m.readers <==> IsReading(th))
    && (HasSlot(th) && !IsDraining(th) ==> m.readers == {})
  }

  /** What the host locks say about thread t: it holds the one of the HostInfo in its hands and no other. */
  predicate HostLockOf(m: Mutexes, t: Tid, th: Thread) {
    && (forall i :: i in m.holder ==> (m.holder[i] == Some(t) <==> HeldInfo(th) == Some(i)))
    && (HeldInfo(th).Some? ==> HeldInfo(th).value in m.holder)
  }

  predicate LocksOf(m: Mutexes, t: Tid, th: Thread) { CertmuOf(m, t, th) && HostLockOf(m, t, th) }

  predicate Locks(s: State) {
    && (forall t {:trigger s.threads[t]} :: t in s.threads ==> LocksOf(s.sh.mu, t, s.threads[t]))
    && (s.sh.mu.writer.Some? ==> s.sh.mu.writer.value in s.threads)
    && s.sh.mu.readers <= s.threads.Keys
    && (forall i :: i in s.sh.mu.holder && s.sh.mu.holder[i].Some? ==> s.sh.mu.holder[i].value in s.threads)
  }

  predicate Inv(s: State) {
    && Heap(s.sh.obj) && SameKeys(s.sh) && Locks(s) && !s.sh.crashed
    && (forall t {:trigger s.threads[t]} :: t in s.threads ==> ThreadFor(s.sh.obj, s.threads[t]))
  }

  // ----- what one step does to the objects -----

  /** HostInfos keep their host and stay complete; a Config that has its names keeps them. */
  predicate Grows(o: Objects, r: Objects) {
    && (forall i :: i in o.hostOf && i in o.configOf ==>
          InfoFor(r, i, o.hostOf[i]) && (o.configOf[i].Some? ==> r.configOf[i].Some?))
    && (forall c :: c in o.configs ==> c in r.configs && (o.configs[c] != BLANK ==> r.configs[c] == o.configs[c]))
  }

  /** The Config pointer of every HostInfo but one stays. */
  predicate SameConfigBut(o: Objects, r: Objects, mine: Option<nat>) {
    forall i :: i in o.configOf && mine != Some(i) ==> i in r.configOf && r.configOf[i] == o.configOf[i]
  }

  /** What only the owner of the writer's slot changes. */
  predicate SameConfigs(o: Objects, r: Objects) {
    SameConfigBut(o, r, None) && r.configs == o.configs && r.table == o.table
  }

  lemma AllocatingStep(s: Shared, t: Tid, h: Host, pc: CertPc, id: nat, a: Answer)
    requires Heap(s.obj) && CertFor(s.obj, h, pc) && SearchEnabled(s, pc, id, a) && pc.Allocating?
    ensures var (r, next) := SearchApply(s, t, h, pc, id, a);
            && Grows(s.obj, r.obj) && SameConfigs(s.obj, r.obj) && Heap(r.obj) && CertFor(r.obj, h, next)
            && r.crashed == s.crashed
  {
  }

  lemma LookingStep(s: Shared, t: Tid, h: Host, pc: CertPc, id: nat, a: Answer)
    requires Heap(s.obj) && CertFor(s.obj, h, pc) && SearchEnabled(s, pc, id, a) && !pc.Allocating?
    ensures var (r, next) := SearchApply(s, t, h, pc, id, a);
            && Grows(s.obj, r.obj) && SameConfigs(s.obj, r.obj) && Heap(r.obj) && CertFor(r.obj, h, next)
            && r.crashed == s.crashed
  {
    assert SearchApply(s, t, h, pc, id, a).0.obj == s.obj;
  }

  lemma SearchStep(s: Shared, t: Tid, h: Host, pc: CertPc, id: nat, a: Answer)
    requires Heap(s.obj) && CertFor(s.obj, h, pc) && SearchEnabled(s, pc, id, a)
    ensures var (r, next) := SearchApply(s, t, h, pc, id, a);
            && Grows(s.obj, r.obj) && SameConfigs(s.obj, r.obj) && Heap(r.obj) && CertFor(r.obj, h, next)
            && r.crashed == s.crashed
  {
    if pc.Allocating? {
      AllocatingStep(s, t, h, pc, id, a);
    } else {
      LookingStep(s, t, h, pc, id, a);
    }
  }

  /** A new config and its contents. */
  predicate Makes(pc: CertPc) { pc.Stamping? || pc.Building? }

  /** The pointer to it, and the table. */
  predicate Links(pc: CertPc) { pc.Built? || pc.Assigned? }

  lemma MakingStep(s: Shared, t: Tid, h: Host, pc: CertPc, id: nat)
    requires Heap(s.obj) && CertFor(s.obj, h, pc) && PublishEnabled(s, pc, id) && Makes(pc)
    ensures var (r, next) := PublishApply(s, t, h, pc, id);
            && Grows(s.obj, r.obj) && SameConfigBut(s.obj, r.obj, InfoOf(pc)) && Heap(r.obj) && CertFor(r.obj, h, next)
            && r.crashed == s.crashed && (HasSlot(Cert(h, pc)) || r.obj == s.obj)
  {
  }

  lemma LinkingStep(s: Shared, t: Tid, h: Host, pc: CertPc, id: nat)
    requires Heap(s.obj) && CertFor(s.obj, h, pc) && PublishEnabled(s, pc, id) && Links(pc)
    ensures var (r, next) := PublishApply(s, t, h, pc, id);
            && Grows(s.obj, r.obj) && SameConfigBut(s.obj, r.obj, InfoOf(pc)) && Heap(r.obj) && CertFor(r.obj, h, next)
            && r.crashed == s.crashed && (HasSlot(Cert(h, pc)) || r.obj == s.obj)
  {
    assert PublishApply(s, t, h, pc, id).0.obj.configs == s.obj.configs;
  }

  lemma LockingStep(s: Shared, t: Tid, h: Host, pc: CertPc, id: nat)
    requires Heap(s.obj) && CertFor(s.obj, h, pc) && PublishEnabled(s, pc, id) && !Makes(pc) && !Links(pc)
    ensures var (r, next) := PublishApply(s, t, h, pc, id);
            && Grows(s.obj, r.obj) && SameConfigBut(s.obj, r.obj, InfoOf(pc)) && Heap(r.obj) && CertFor(r.obj, h, next)
            && r.crashed == s.crashed && (HasSlot(Cert(h, pc)) || r.obj == s.obj)
  {
    assert PublishApply(s, t, h, pc, id).0.obj == s.obj;
  }

  lemma PublishStep(s: Shared, t: Tid, h: Host, pc: CertPc, id: nat)
    requires Heap(s.obj) && CertFor(s.obj, h, pc) && PublishEnabled(s, pc, id)
    ensures var (r, next) := PublishApply(s, t, h, pc, id);
            && Grows(s.obj, r.obj) && SameConfigBut(s.obj, r.obj, InfoOf(pc)) && Heap(r.obj) && CertFor(r.obj, h, next)
            && r.crashed == s.crashed && (HasSlot(Cert(h, pc)) || r.obj == s.obj)
  {
    if Makes(pc) {
      MakingStep(s, t, h, pc, id);
    } else if Links(pc) {
      LinkingStep(s, t, h, pc, id);
    } else {
      LockingStep(s, t, h, pc, id);
    }
  }

  lemma TestStep(s: Shared, t: Tid, h: Host, pc: TestPc, id: nat, a: Answer)
    requires Heap(s.obj) && TestFor(s.obj, h, pc) && TestEnabled(s, pc, id, a)
    ensures var (r, next) := TestApply(s, t, h, pc, id, a);
            && Grows(s.obj, r.obj) && SameConfigBut(s.obj, r.obj, None) && Heap(r.obj) && TestFor(r.obj, h, next)
            && r.crashed == s.crashed && (HasSlot(Test(h, pc)) || r.obj == s.obj)
  {
  }

  /** What a thread keeps when another one moves: its HostInfo is locked and its new config is not shared. */
  lemma OtherThread(o: Objects, r: Objects, th: Thread)
    requires Grows(o, r) && ThreadFor(o, th)
    requires HeldInfo(th).Some? && HeldInfo(th).value in o.configOf ==>
               r.configOf[HeldInfo(th).value] == o.configOf[HeldInfo(th).value]
    requires HasSlot(th) ==> SameConfigs(o, r)
    ensures ThreadFor(r, th)
  {
  }

  // ----- what one step does to the locks -----

  /** o and r differ at most in who of "nobody" and t it is. */
  predicate Mine(o: Option<Tid>, r: Option<Tid>, t: Tid) {
    o == r || ((o == None || o == Some(t)) && (r == None || r == Some(t)))
  }

  /** Thread t takes and releases only what is free or its own, and lets nobody in beside a writer. */
  ghost predicate OnlyMine(m: Mutexes, r: Mutexes, t: Tid) {
    && Mine(m.writer, r.writer, t)
    && (forall u :: u != t ==> (u in r.readers <==> u in m.readers))
    && r.readers <= m.readers + {t}
    && (t in r.readers ==> t in m.readers || m.writer == None)
    && m.holder.Keys <= r.holder.Keys
    && (forall i :: i in r.holder ==> Mine(if i in m.holder then m.holder[i] else None, r.holder[i], t))
  }

  lemma SearchCertmu(s: Shared, t: Tid, h: Host, pc: CertPc, id: nat, a: Answer)
    requires SearchEnabled(s, pc, id, a) && CertmuOf(s.mu, t, Cert(h, pc))
    ensures var (r, next) := SearchApply(s, t, h, pc, id, a);
            CertmuOf(r.mu, t, Cert(h, next))
  {
  }

  lemma SearchHostLock(s: Shared, t: Tid, h: Host, pc: CertPc, id: nat, a: Answer)
    requires SearchEnabled(s, pc, id, a) && HostLockOf(s.mu, t, Cert(h, pc)) && SameKeys(s)
    ensures var (r, next) := SearchApply(s, t, h, pc, id, a);
            HostLockOf(r.mu, t, Cert(h, next))
  {
    var (r, next) := SearchApply(s, t, h, pc, id, a);
    if pc.Allocating? {
      assert r.mu.holder == s.mu.holder[id := None] && next == WantInfo(id, false);
    } else if pc.WantInfo? {
      assert r.mu.holder == s.mu.holder[pc.info := Some(t)] && next == Checking(pc.info, pc.found);
    } else {
      assert r.mu.holder == s.mu.holder && HeldInfo(Cert(h, next)) == HeldInfo(Cert(h, pc));
    }
  }

  lemma SearchSameKeys(s: Shared, t: Tid, h: Host, pc: CertPc, id: nat, a: Answer)
    requires SearchEnabled(s, pc, id, a) && SameKeys(s)
    ensures SameKeys(SearchApply(s, t, h, pc, id, a).0)
  {
  }

  lemma SearchTakesOwn(s: Shared, t: Tid, h: Host, pc: CertPc, id: nat, a: Answer)
    requires SearchEnabled(s, pc, id, a) && LocksOf(s.mu, t, Cert(h, pc)) && SameKeys(s)
    ensures var (r, _) := SearchApply(s, t, h, pc, id, a);
            OnlyMine(s.mu, r.mu, t)
  {
  }

  lemma PublishCertmu(s: Shared, t: Tid, h: Host, pc: CertPc, id: nat)
    requires PublishEnabled(s, pc, id) && CertmuOf(s.mu, t, Cert(h, pc))
    ensures var (r, next) := PublishApply(s, t, h, pc, id);
            CertmuOf(r.mu, t, Cert(h, next))
  {
  }

  lemma PublishHostLock(s: Shared, t: Tid, h: Host, pc: CertPc, id: nat)
    requires PublishEnabled(s, pc, id) && HostLockOf(s.mu, t, Cert(h, pc)) && SameKeys(s)
    ensures var (r, next) := PublishApply(s, t, h, pc, id);
            HostLockOf(r.mu, t, Cert(h, next)) && SameKeys(r)
  {
    var (r, next) := PublishApply(s, t, h, pc, id);
    if pc.InfoUnlock? {
      assert r.mu.holder == s.mu.holder[pc.info := None];
    } else {
      assert r.mu.holder == s.mu.holder && InfoOf(next) == InfoOf(pc);
    }
  }

  lemma PublishTakesOwn(s: Shared, t: Tid, h: Host, pc: CertPc, id: nat)
    requires PublishEnabled(s, pc, id) && LocksOf(s.mu, t, Cert(h, pc)) && SameKeys(s)
    ensures var (r, _) := PublishApply(s, t, h, pc, id);
            OnlyMine(s.mu, r.mu, t)
  {
  }

  lemma FlushLocks(s: Shared, t: Tid, h: Host, pc: FlushPc)
    requires FlushEnabled(s, pc) && LocksOf(s.mu, t, Flush(h, pc)) && SameKeys(s)
    ensures var (r, next) := FlushApply(s, t, h, pc);
            && LocksOf(r.mu, t, Flush(h, next)) && OnlyMine(s.mu, r.mu, t) && SameKeys(r)
            && r.crashed == s.crashed
  {
  }

  lemma TestLocks(s: Shared, t: Tid, h: Host, pc: TestPc, id: nat, a: Answer)
    requires TestEnabled(s, pc, id, a) && LocksOf(s.mu, t, Test(h, pc)) && SameKeys(s)
    ensures var (r, next) := TestApply(s, t, h, pc, id, a);
            LocksOf(r.mu, t, Test(h, next))
  {
  }

  lemma TestTakesOwn(s: Shared, t: Tid, h: Host, pc: TestPc, id: nat, a: Answer)
    requires TestEnabled(s, pc, id, a) && CertmuOf(s.mu, t, Test(h, pc)) && SameKeys(s)
    ensures var (r, _) := TestApply(s, t, h, pc, id, a);
            OnlyMine(s.mu, r.mu, t) && SameKeys(r)
  {
  }

  lemma OtherLocks(m: Mutexes, r: Mutexes, t: Tid, u: Tid, th: Thread)
    requires OnlyMine(m, r, t) && u != t && LocksOf(m, u, th)
    ensures LocksOf(r, u, th)
  {
  }

  // ----- the invariant over whole runs -----

  lemma OtherStep(s: State, t: Tid, r: Shared, u: Tid)
    requires Locks(s) && t in s.threads && u in s.threads && u != t && ThreadFor(s.sh.obj, s.threads[u])
    requires SameKeys(s.sh)
    requires Grows(s.sh.obj, r.obj) && OnlyMine(s.sh.mu, r.mu, t)
    requires SameConfigBut(s.sh.obj, r.obj, HeldInfo(s.threads[t]))
    requires HasSlot(s.threads[t]) || SameConfigs(s.sh.obj, r.obj)
    ensures ThreadFor(r.obj, s.threads[u]) && LocksOf(r.mu, u, s.threads[u])
  {
    var th := s.threads[u];
    assert LocksOf(s.sh.mu, u, th) && LocksOf(s.sh.mu, t, s.threads[t]);
    OtherThread(s.sh.obj, r.obj, th);
    OtherLocks(s.sh.mu, r.mu, t, u, th);
  }

  lemma StepLocks(s: State, t: Tid, r: Shared, next: Thread)
    requires Locks(s) && t in s.threads && OnlyMine(s.sh.mu, r.mu, t) && LocksOf(r.mu, t, next)
    requires forall u :: u in s.threads && u != t ==> LocksOf(r.mu, u, s.threads[u])
    ensures Locks(State(r, s.threads[t := next]))
  {
  }

  /** A step of thread th keeps its own part of the invariant and what the others rely on. */
  ghost predicate Proper(s: Shared, t: Tid, th: Thread, r: Shared, next: Thread) {
    && Grows(s.obj, r.obj) && Heap(r.obj) && ThreadFor(r.obj, next) && SameKeys(r) && !r.crashed
    && LocksOf(r.mu, t, next) && OnlyMine(s.mu, r.mu, t)
    && SameConfigBut(s.obj, r.obj, HeldInfo(th))
    && (HasSlot(th) || SameConfigs(s.obj, r.obj))
  }

  predicate Ready(s: Shared, t: Tid, th: Thread) {
    Heap(s.obj) && ThreadFor(s.obj, th) && SameKeys(s) && LocksOf(s.mu, t, th) && !s.crashed
  }

  lemma SearchIsProper(s: Shared, t: Tid, h: Host, pc: CertPc, id: nat, a: Answer)
    requires Ready(s, t, Cert(h, pc)) && SearchEnabled(s, pc, id, a)
    ensures var (r, next) := SearchApply(s, t, h, pc, id, a); Proper(s, t, Cert(h, pc), r, Cert(h, next))
  {
    SearchStep(s, t, h, pc, id, a);
    SearchCertmu(s, t, h, pc, id, a);
    SearchHostLock(s, t, h, pc, id, a);
    SearchSameKeys(s, t, h, pc, id, a);
    SearchTakesOwn(s, t, h, pc, id, a);
  }

  lemma PublishIsProper(s: Shared, t: Tid, h: Host, pc: CertPc, id: nat)
    requires Ready(s, t, Cert(h, pc)) && PublishEnabled(s, pc, id)
    ensures var (r, next) := PublishApply(s, t, h, pc, id); Proper(s, t, Cert(h, pc), r, Cert(h, next))
  {
    PublishStep(s, t, h, pc, id);
    PublishCertmu(s, t, h, pc, id);
    PublishHostLock(s, t, h, pc, id);
    PublishTakesOwn(s, t, h, pc, id);
    assert HeldInfo(Cert(h, pc)) == InfoOf(pc);
  }

  lemma TestIsProper(s: Shared, t: Tid, h: Host, pc: TestPc, id: nat, a: Answer)
    requires Ready(s, t, Test(h, pc)) && TestEnabled(s, pc, id, a)
    ensures var (r, next) := TestApply(s, t, h, pc, id, a); Proper(s, t, Test(h, pc), r, Test(h, next))
  {
    TestStep(s, t, h, pc, id, a);
    TestLocks(s, t, h, pc, id, a);
    TestTakesOwn(s, t, h, pc, id, a);
  }

  lemma FlushIsProper(s: Shared, t: Tid, h: Host, pc: FlushPc)
    requires Ready(s, t, Flush(h, pc)) && FlushEnabled(s, pc)
    ensures var (r, next) := FlushApply(s, t, h, pc); Proper(s, t, Flush(h, pc), r, Flush(h, next))
  {
    FlushLocks(s, t, h, pc);
  }

  /** The step of one thread, as the others see it. */
  lemma OneStep(s: State, t: Tid, id: nat, a: Answer)
    requires Inv(s) && Enabled(s, Go(t, id, a))
    ensures var (r, next) := ThreadApply(s.sh, t, s.threads[t], id, a);
            Proper(s.sh, t, s.threads[t], r, next)
  {
    match s.threads[t]
    case Cert(h, pc) =>
      if Searching(pc) {
        SearchIsProper(s.sh, t, h, pc, id, a);
      } else {
        PublishIsProper(s.sh, t, h, pc, id);
      }
    case Flush(h, pc) => FlushIsProper(s.sh, t, h, pc);
    case Test(h, pc) => TestIsProper(s.sh, t, h, pc, id, a);
  }

  lemma Step(s: State, t: Tid, id: nat, a: Answer)
    requires Inv(s) && Enabled(s, Go(t, id, a))
    ensures Inv(Apply(s, Go(t, id, a)))
  {
    var (r, next) := ThreadApply(s.sh, t, s.threads[t], id, a);
    OneStep(s, t, id, a);
    forall u | u in s.threads && u != t
      ensures ThreadFor(r.obj, s.threads[u]) && LocksOf(r.mu, u, s.threads[u])
    {
      OtherStep(s, t, r, u);
    }
    StepLocks(s, t, r, next);
  }
}
