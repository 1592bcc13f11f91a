/**
 * The certificate cache of signer.go under any number of threads that run `Cert`, `FlushCert`
 * and `GetTestCertificate`.
 *
 * Shared are the table from host to HostInfo, the HostInfo and tls.Config objects (as ids into a
 * heap), the RW lock `certmu` and one mutex per HostInfo.  A step is one access to shared state,
 * one lock operation, or one answer of code that is not modelled: certificate verification, the
 * upstream connection, certificate creation.  `certmu` is Go's RWMutex: a writer first takes the
 * writer's slot, which stops new readers, and then waits for the readers inside to leave.
 * Time is counted in minutes.
 */
module CertCache {
  import opened Basics

  type Host = string
  type Tid = nat

  datatype Result = Returned(config: Option<nat>) | Error

  /** `stale` is the config that was found in the cache and failed its re-verification, if any. */
  datatype CertPc =
    | WantRead
    | Looking                                             // certmu.RLock held
    | Unlocking(entry: Option<nat>)                       // certmu.RLock held
    | Allocating                                          // not found: hostmetadata = &HostInfo{}
    | WantInfo(info: nat, found: bool)                    // at hostmetadata.mu.Lock
    | Checking(info: nat, found: bool)                    // hostmetadata.mu held from here on
    | Verifying(info: nat)
    | Fetching(info: nat, stale: Option<nat>)
    | Creating(info: nat, stale: Option<nat>, bad: bool)
    | WantWrite(info: nat, stale: Option<nat>, bad: bool) // at certmu.Lock
    | Draining(info: nat, stale: Option<nat>, bad: bool)  // writer's slot taken, readers inside
    | Stamping(info: nat, stale: Option<nat>, bad: bool)  // certmu held
    | Building(info: nat, config: nat)                    // the new tls.Config is still blank
    | Built(info: nat, config: nat)
    | Assigned(info: nat, config: nat)                    // hostmetadata.Config set, table not yet
    | WriteUnlock(info: nat, result: Result)
    | InfoUnlock(info: nat, result: Result)
    | CertDone(result: Result)

  datatype FlushPc = FlushWant | FlushDraining | Deleting | FlushUnlock | FlushDone

  datatype TestPc =
    | TestWant | TestDraining | TestCreating | TestBuilding(config: nat) | TestBuilt(config: nat)
    | TestPublish(config: nat, info: nat) | TestUnlock(result: Result) | TestDone(result: Result)

  datatype Thread = Cert(host: Host, cert: CertPc) | Flush(host: Host, flush: FlushPc) | Test(host: Host, test: TestPc)

  /** A tls.Config: Certificates and NameToCertificate, with certificates as ids, and whether the versions and the
      renegotiation are set, as Cert does and GetTestCertificate does not. */
  datatype TlsConfig = TlsConfig(certificates: seq<nat>, nameToCertificate: map<Host, nat>, limited: bool)

  const BLANK := TlsConfig([], map[], false)

  /** The table, and the heap by field: HostInfo objects have a Config pointer, tls.Config objects
      their contents. `hostOf` is history: for whom a HostInfo was allocated. */
  datatype Objects = Objects(table: map<Host, nat>, hostOf: map<nat, Host>, configOf: map<nat, Option<nat>>,
                             configs: map<nat, TlsConfig>)

  /** certmu, and the holder of the mutex of each HostInfo. */
  datatype Mutexes = Mutexes(writer: Option<Tid>, readers: set<Tid>, holder: map<nat, Option<Tid>>)

  /** The clock and the two time stamps of each HostInfo. */
  datatype Times = Times(now: int, lastVerify: map<nat, int>, nextAttempt: map<nat, int>)

  /** `local` are the hosts that name the device itself. */
  datatype Shared = Shared(obj: Objects, mu: Mutexes, times: Times, local: set<Host>, crashed: bool)

  datatype State = State(sh: Shared, threads: map<Tid, Thread>)

  predicate Init(s: State) {
    && s.sh.obj == Objects(map[], map[], map[], map[])
    && s.sh.mu == Mutexes(None, {}, map[])
    && s.sh.times == Times(s.sh.times.now, map[], map[]) && s.sh.times.now > 60
    && !s.sh.crashed && s.threads == map[]
  }

  /** The answer of code that is not modelled; Good where there is nothing to answer. */
  datatype Answer = Good | Bad | Failed

  predicate Allocated(s: Shared, i: nat) {
    i in s.obj.hostOf && i in s.obj.configOf && i in s.mu.holder && i in s.times.lastVerify && i in s.times.nextAttempt
  }

  predicate Unallocated(s: Shared, i: nat) {
    i !in s.obj.hostOf && i !in s.obj.configOf && i !in s.mu.holder && i !in s.times.lastVerify
    && i !in s.times.nextAttempt
  }

  /** `&HostInfo{Config: config}` */
  function NewInfo(s: Shared, i: nat, h: Host, config: Option<nat>): Shared {
    s.(obj := s.obj.(hostOf := s.obj.hostOf[i := h], configOf := s.obj.configOf[i := config]),
       mu := s.mu.(holder := s.mu.holder[i := None]),
       times := s.times.(lastVerify := s.times.lastVerify[i := 0], nextAttempt := s.times.nextAttempt[i := 0]))
  }

  function SetHolder(s: Shared, i: nat, holder: Option<Tid>): Shared {
    s.(mu := s.mu.(holder := s.mu.holder[i := holder]))
  }

  function SetConfig(s: Shared, c: nat, config: TlsConfig): Shared {
    s.(obj := s.obj.(configs := s.obj.configs[c := config]))
  }

  /** A config for one host with one certificate. */
  function Made(h: Host, cert: nat, limited: bool): TlsConfig { TlsConfig([cert], map[h := cert], limited) }

  function Stamp(s: Shared, i: nat): Shared {
    s.(times := s.times.(lastVerify := s.times.lastVerify[i := s.times.now]))
  }

  function SetWriter(s: Shared, writer: Option<Tid>): Shared { s.(mu := s.mu.(writer := writer)) }

  function SetReaders(s: Shared, readers: set<Tid>): Shared { s.(mu := s.mu.(readers := readers)) }

  function SetTable(s: Shared, table: map<Host, nat>): Shared { s.(obj := s.obj.(table := table)) }

  /** A published Config is due for another look after an hour. */
  predicate Due(s: Shared, i: nat)
    requires i in s.times.lastVerify
  {
    s.times.lastVerify[i] < s.times.now - 60
  }

  /** The upstream is asked unless the host is the device itself or a bad chain was seen within a day. */
  predicate AsksUpstream(s: Shared, h: Host, i: nat)
    requires i in s.times.nextAttempt
  {
    h !in s.local && s.times.nextAttempt[i] < s.times.now
  }

  /** The HostInfo a Cert call has in hand. */
  function InfoOf(pc: CertPc): Option<nat> {
    match pc
    case WantInfo(i, _) => Some(i)
    case Checking(i, _) => Some(i)
    case Verifying(i) => Some(i)
    case Fetching(i, _) => Some(i)
    case Creating(i, _, _) => Some(i)
    case WantWrite(i, _, _) => Some(i)
    case Draining(i, _, _) => Some(i)
    case Stamping(i, _, _) => Some(i)
    case Building(i, _) => Some(i)
    case Built(i, _) => Some(i)
    case Assigned(i, _) => Some(i)
    case WriteUnlock(i, _) => Some(i)
    case InfoUnlock(i, _) => Some(i)
    case _ => None
  }

  /** `certWithCommonName` up to the creation of the certificate. */
  predicate Searching(pc: CertPc) {
    pc.WantRead? || pc.Looking? || pc.Unlocking? || pc.Allocating? || pc.WantInfo? || pc.Checking? || pc.Verifying?
    || pc.Fetching? || pc.Creating?
  }

  predicate InfoExists(s: Shared, pc: CertPc) { InfoOf(pc).Some? ==> Allocated(s, InfoOf(pc).value) }

  predicate SearchEnabled(s: Shared, pc: CertPc, id: nat, a: Answer) {
    InfoExists(s, pc) &&
    match pc
    case WantRead => s.mu.writer == None
    case Looking => true
    case Unlocking(_) => true
    case Allocating => Unallocated(s, id)
    case WantInfo(i, _) => s.mu.holder[i] == None
    case Checking(_, _) => true
    case Verifying(_) => a != Bad
    case Fetching(_, _) => true
    case Creating(_, _, _) => a != Bad
    case _ => false
  }

  function SearchApply(s: Shared, t: Tid, h: Host, pc: CertPc, id: nat, a: Answer): (Shared, CertPc)
    requires SearchEnabled(s, pc, id, a)
  {
    match pc
    case WantRead => (SetReaders(s, s.mu.readers + {t}), Looking)
    case Looking => (s, Unlocking(if h in s.obj.table then Some(s.obj.table[h]) else None))
    case Unlocking(entry) =>
      (SetReaders(s, s.mu.readers - {t}), if entry.Some? then WantInfo(entry.value, true) else Allocating)
    case Allocating => (NewInfo(s, id, h, None), WantInfo(id, false))
    case WantInfo(i, found) => (SetHolder(s, i, Some(t)), Checking(i, found))
    case Checking(i, found) =>
      if !found then (s, Fetching(i, None))
      else if Due(s, i) then (s, Verifying(i))
      else (s, InfoUnlock(i, Returned(s.obj.configOf[i])))
    case Verifying(i) =>
      // tlsc.Leaf of the cached certificate: a crash if Config is nil or has no entry for the host
      var c := s.obj.configOf[i];
      if c.None? || c.value !in s.obj.configs || h !in s.obj.configs[c.value].nameToCertificate then
        (s.(crashed := true), InfoUnlock(i, Error))
      else if a == Good then (Stamp(s, i), InfoUnlock(i, Returned(c)))
      else (s, Fetching(i, c))
    case Fetching(i, stale) =>
      if !AsksUpstream(s, h, i) then (s, Creating(i, stale, false))
      else if a == Failed then (s, InfoUnlock(i, Error))
      else if a == Bad && Due(s, i) then
        (s.(times := s.times.(nextAttempt := s.times.nextAttempt[i := s.times.now + 24 * 60])),
         Creating(i, stale, true))
      else (s, Creating(i, stale, false))
    case Creating(i, stale, bad) => (s, if a == Failed then InfoUnlock(i, Error) else WantWrite(i, stale, bad))
  }

  predicate PublishEnabled(s: Shared, pc: CertPc, id: nat) {
    InfoExists(s, pc) &&
    match pc
    case WantWrite(_, _, _) => s.mu.writer == None
    case Draining(_, _, _) => s.mu.readers == {}
    case Stamping(_, _, _) => id !in s.obj.configs
    case Building(_, _) => true
    case Built(_, _) => true
    case Assigned(_, _) => true
    case WriteUnlock(_, _) => true
    case InfoUnlock(_, _) => true
    case _ => false
  }

  /** `certWithCommonName` from certmu.Lock to its return. */
  function PublishApply(s: Shared, t: Tid, h: Host, pc: CertPc, id: nat): (Shared, CertPc)
    requires PublishEnabled(s, pc, id)
  {
    match pc
    case WantWrite(i, stale, bad) => (SetWriter(s, Some(t)), Draining(i, stale, bad))
    case Draining(i, stale, bad) => (s, Stamping(i, stale, bad))
    case Stamping(i, stale, bad) =>
      var r := Stamp(s, i);
      if stale.None? || bad then (SetConfig(r, id, BLANK), Building(i, id))
      else (r, WriteUnlock(i, Returned(s.obj.configOf[i])))
    case Building(i, c) => (SetConfig(s, c, Made(h, id, true)), Built(i, c))
    case Built(i, c) => (s.(obj := s.obj.(configOf := s.obj.configOf[i := Some(c)])), Assigned(i, c))
    case Assigned(i, c) => (SetTable(s, s.obj.table[h := i]), WriteUnlock(i, Returned(Some(c))))
    case WriteUnlock(i, result) => (SetWriter(s, None), InfoUnlock(i, result))
    case InfoUnlock(i, result) => (SetHolder(s, i, None), CertDone(result))
  }

  predicate CertEnabled(s: Shared, pc: CertPc, id: nat, a: Answer) {
    if Searching(pc) then SearchEnabled(s, pc, id, a) else PublishEnabled(s, pc, id)
  }

  function CertApply(s: Shared, t: Tid, h: Host, pc: CertPc, id: nat, a: Answer): (Shared, CertPc)
    requires CertEnabled(s, pc, id, a)
  {
    if Searching(pc) then SearchApply(s, t, h, pc, id, a) else PublishApply(s, t, h, pc, id)
  }

  predicate FlushEnabled(s: Shared, pc: FlushPc) {
    match pc
    case FlushWant => s.mu.writer == None
    case FlushDraining => s.mu.readers == {}
    case Deleting => true
    case FlushUnlock => true
    case FlushDone => false
  }

  function FlushApply(s: Shared, t: Tid, h: Host, pc: FlushPc): (Shared, FlushPc)
    requires FlushEnabled(s, pc)
  {
    match pc
    case FlushWant => (SetWriter(s, Some(t)), FlushDraining)
    case FlushDraining => (s, Deleting)
    case Deleting => (SetTable(s, s.obj.table - {h}), FlushUnlock)
    case FlushUnlock => (SetWriter(s, None), FlushDone)
  }

  predicate TestEnabled(s: Shared, pc: TestPc, id: nat, a: Answer) {
    match pc
    case TestWant => s.mu.writer == None
    case TestDraining => s.mu.readers == {}
    case TestCreating => id !in s.obj.configs && a != Bad
    case TestBuilding(_) => true
    case TestBuilt(_) => Unallocated(s, id)
    case TestPublish(_, _) => true
    case TestUnlock(_) => true
    case TestDone(_) => false
  }

  function TestApply(s: Shared, t: Tid, h: Host, pc: TestPc, id: nat, a: Answer): (Shared, TestPc)
    requires TestEnabled(s, pc, id, a)
  {
    match pc
    case TestWant => (SetWriter(s, Some(t)), TestDraining)
    case TestDraining => (s, TestCreating)
    case TestCreating =>
      if a == Failed then (s, TestUnlock(Error)) else (SetConfig(s, id, BLANK), TestBuilding(id))
    case TestBuilding(c) => (SetConfig(s, c, Made(h, id, false)), TestBuilt(c))
    case TestBuilt(c) => (NewInfo(s, id, h, Some(c)), TestPublish(c, id))
    case TestPublish(c, i) => (SetTable(s, s.obj.table[h := i]), TestUnlock(Returned(Some(c))))
    case TestUnlock(result) => (SetWriter(s, None), TestDone(result))
  }

  datatype Call = CallCert | CallFlush | CallTest

  datatype Action = Tick(minutes: nat) | Start(t: Tid, host: Host, call: Call) | Go(t: Tid, id: nat, a: Answer)

  predicate ThreadEnabled(s: Shared, th: Thread, id: nat, a: Answer) {
    match th
    case Cert(_, pc) => CertEnabled(s, pc, id, a)
    case Flush(_, pc) => FlushEnabled(s, pc)
    case Test(_, pc) => TestEnabled(s, pc, id, a)
  }

  function ThreadApply(s: Shared, t: Tid, th: Thread, id: nat, a: Answer): (Shared, Thread)
    requires ThreadEnabled(s, th, id, a)
  {
    match th
    case Cert(h, pc) => var (r, next) := CertApply(s, t, h, pc, id, a); (r, Cert(h, next))
    case Flush(h, pc) => var (r, next) := FlushApply(s, t, h, pc); (r, Flush(h, next))
    case Test(h, pc) => var (r, next) := TestApply(s, t, h, pc, id, a); (r, Test(h, next))
  }

  predicate Enabled(s: State, a: Action) {
    match a
    case Tick(_) => true
    case Start(t, _, _) => t !in s.threads
    case Go(t, id, answer) => t in s.threads && ThreadEnabled(s.sh, s.threads[t], id, answer)
  }

  function Apply(s: State, a: Action): State
    requires Enabled(s, a)
  {
    match a
    case Tick(m) => s.(sh := s.sh.(times := s.sh.times.(now := s.sh.times.now + m)))
    case Start(t, h, call) =>
      var th :=
        match call
        case CallCert => Cert(h, WantRead)
        case CallFlush => Flush(h, FlushWant)
        case CallTest => Test(h, TestWant);
      s.(threads := s.threads[t := th])
    case Go(t, id, answer) =>
      var (r, next) := ThreadApply(s.sh, t, s.threads[t], id, answer);
      State(r, s.threads[t := next])
  }

  predicate Run(s: State, actions: seq<Action>, t: State)
    decreases |actions|
  {
    if actions == [] then t == s
    else Enabled(s, actions[0]) && Run(Apply(s, actions[0]), actions[1..], t)
  }

  ghost predicate Reachable(t: State) { exists s, actions :: Init(s) && Run(s, actions, t) }
}
