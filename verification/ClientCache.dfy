/** The client's generation and contract cache (app/src/background_service.rs): polling, pairing
    commands, status and verified shutdown share a transition lock and a cache lock, while
    service owners come and go. A state machine over the locks' critical sections. */
module ClientCache {
  import opened Faults

  /** Service owners are numbered in the order they start; a generation names exactly one. */
  datatype Generation = Unavailable | Of(owner: nat)

  datatype Snapshot = Snapshot(owner: nat, hash: string, background: bool, sampled: nat)

  /** A negotiated selection, with the owner and executable that answered. */
  datatype Contract = Contract(owner: nat, hash: string, canStop: bool)

  datatype Cached = Cached(generation: Generation, hash: string, background: bool, sampled: nat)

  datatype Service = Service(owner: nat, hash: string, background: bool, canStop: bool)

  /** Where a thread is, and so which of the two locks it holds. Between `Writing` and the end of
      `Replacing`, and between `Clearing` and the end of `Forgetting`, contract and cache are
      written one after the other. */
  datatype Pc =
    | WantsExchange
    | WantsStop
    | WantsStatus
    | Asking(began: nat)
    | Sampled(began: nat, snapshot: Snapshot)
    | Comparing(began: nat, snapshot: Snapshot, generation: Generation, contract: Option<Contract>)
    | Agreed(began: nat, snapshot: Snapshot, agreed: Contract)
    | Writing(began: nat, snapshot: Snapshot, agreed: Contract)
    | Replacing(began: nat, snapshot: Snapshot, agreed: Contract)
    | Losing(began: nat)
    | Clearing(began: nat)
    | Forgetting(began: nat)
    | BeforeStop(began: nat)
    | Stopping(began: nat, generation: Generation, hash: string, background: bool)
    | Looking(generation: Generation, hash: string)
  {
    predicate InTransition() { !WantsExchange? && !WantsStop? && !WantsStatus? && !Looking? }
    predicate InCache() { Writing? || Replacing? || Clearing? || Forgetting? || Looking? }
    predicate HalfDone() { Replacing? || Forgetting? }
    /** What a thread at this place was started for. */
    function Serves(): Aim {
      if WantsStop? || BeforeStop? || Stopping? then Stop else if WantsStatus? || Looking? then Status else Exchange
    }

    predicate CanFail() { Asking? || Sampled? || Comparing? || Agreed? }
  }

  /** What an exchange did to the cache: when it began and when it took effect. */
  datatype Event = Confirmed(began: nat, at: nat, owner: nat) | Lost(began: nat, at: nat)

  /** What an observer saw, whether it wanted to stop the service, and whether it then asked that
      generation to stop. */
  datatype View = View(observer: nat, generation: Generation, hash: string, contract: Option<Contract>, asker: bool, stops: bool)

  /** What a thread was started for. */
  datatype Aim = Exchange | Stop | Status

  datatype Shared = Shared(
    clock: nat, service: Option<Service>, owners: nat, cached: Cached, contract: Option<Contract>,
    transition: Option<nat>, cache: Option<nat>, log: seq<Event>, seen: seq<View>, aims: map<nat, Aim>)

  datatype State = State(shared: Shared, threads: map<nat, Pc>)

  datatype Action =
    | StartService(served: string, canStop: bool)
    | StopService
    | Spawn(id: nat, aim: Aim)
    | TakeTransition(id: nat)
    | Sample(id: nat)
    | Fail(id: nat)
    | ReadCache(id: nat)
    | Settle(id: nat)
    | LockCache(id: nat)
    | WriteContract(id: nat)
    | WriteCache(id: nat)
    | Look(id: nat)
    | Report(id: nat)

  /** The pair of cache and contract an observer may meet. `hash` is this client's executable, and
      `mode` says of every owner, by number, whether it is a background service. */
  predicate Coherent(hash: string, mode: nat -> bool, v: View) {
    if v.contract.None? then v.generation.Unavailable? && !v.stops
    else
      && (v.stops <==> v.asker && v.contract.value.canStop && mode(v.contract.value.owner))
      && v.generation == Of(v.contract.value.owner) && v.hash == hash && v.contract.value.hash == hash
  }

  function Seen(s: Shared): View {
    View(0, s.cached.generation, s.cached.hash, s.contract, false, false)
  }

  /** `connect` succeeded: one owner was sampled and negotiated with. */
  predicate Connected(hash: string, mode: nat -> bool, s: State) {
    && s.threads == map[] && s.shared.transition.None? && s.shared.cache.None? && s.shared.log == [] && s.shared.seen == [] && s.shared.aims == map[]
    && s.shared.contract.Some? && Coherent(hash, mode, Seen(s.shared)) && s.shared.cached.sampled <= s.shared.clock
    && s.shared.contract.value.owner < s.shared.owners
    && (s.shared.service.Some? ==> s.shared.service.value.owner < s.shared.owners)
    && s.shared.cached.background == mode(s.shared.contract.value.owner)
    && (s.shared.service.Some? ==> s.shared.service.value.background == mode(s.shared.service.value.owner))
  }

  predicate Enabled(hash: string, mode: nat -> bool, s: State, a: Action) {
    if a.StartService? then s.shared.service.None?
    else if a.StopService? then s.shared.service.Some?
    else if a.Spawn? then a.id !in s.shared.aims && a.id !in s.threads
    else a.id in s.threads && Ready(hash, mode, s.shared, s.threads[a.id], a)
  }

  /** Whether a thread at `pc` can take a step. Both locks exclude every other holder. */
  predicate Ready(hash: string, mode: nat -> bool, s: Shared, pc: Pc, a: Action) {
    match a
    case TakeTransition(_) => (pc.WantsExchange? || pc.WantsStop?) && s.transition.None?
    // `validate_snapshot` admits only this client's own executable.
    case Sample(_) => pc.Asking? && s.service.Some? && s.service.value.hash == hash
    case Fail(_) => pc.CanFail()
    case ReadCache(_) => pc.Sampled? && s.cache.None?
    // A changed generation is negotiated again, and only its own owner answers.
    case Settle(_) =>
      pc.Comparing? && (Reuses(pc) || (s.service.Some? && s.service.value.owner == pc.snapshot.owner && s.service.value.hash == hash))
    case LockCache(_) => (pc.Agreed? || pc.Losing?) && s.cache.None?
    case WriteContract(_) => pc.Writing? || pc.Clearing?
    case WriteCache(_) => pc.Replacing? || pc.Forgetting?
    case Look(_) => (pc.WantsStatus? || pc.BeforeStop?) && s.cache.None?
    case Report(_) => pc.Looking? || pc.Stopping?
    case _ => false
  }

  predicate Reuses(pc: Pc)
    requires pc.Comparing?
  {
    pc.generation == Of(pc.snapshot.owner) && pc.contract.Some?
  }

  /** The thread's step: the new shared state, and where the thread goes (or that it ends). */
  function Effect(hash: string, mode: nat -> bool, s: Shared, id: nat, pc: Pc, a: Action): (Shared, Option<Pc>)
    requires Ready(hash, mode, s, pc, a)
  {
    var s := s.(clock := s.clock + 1);
    match a
    case TakeTransition(_) =>
      (s.(transition := Some(id)), Some(if pc.WantsStop? then BeforeStop(s.clock) else Asking(s.clock)))
    case Sample(_) =>
      var service := s.service.value;
      (s, Some(Sampled(pc.began, Snapshot(service.owner, service.hash, service.background, s.clock))))
    case Fail(_) => (s, Some(Losing(pc.began)))
    case ReadCache(_) =>
      (s, Some(Comparing(pc.began, pc.snapshot, s.cached.generation, s.contract)))
    case Settle(_) =>
      var agreed := if Reuses(pc) then pc.contract.value
                    else Contract(s.service.value.owner, s.service.value.hash, s.service.value.canStop);
      (s, Some(Agreed(pc.began, pc.snapshot, agreed)))
    case LockCache(_) =>
      (s.(cache := Some(id)), Some(if pc.Agreed? then Writing(pc.began, pc.snapshot, pc.agreed) else Clearing(pc.began)))
    case WriteContract(_) =>
      if pc.Writing? then (s.(contract := Some(pc.agreed)), Some(Replacing(pc.began, pc.snapshot, pc.agreed)))
      else (s.(contract := None), Some(Forgetting(pc.began)))
    case WriteCache(_) =>
      var free := s.(cache := None, transition := None);
      if pc.Replacing? then
        var n := pc.snapshot;
        (free.(cached := Cached(Of(n.owner), n.hash, n.background, n.sampled),
               log := s.log + [Confirmed(pc.began, s.clock, n.owner)]), None)
      else (free.(cached := s.cached.(generation := Unavailable), log := s.log + [Lost(pc.began, s.clock)]), None)
    case Look(_) =>
      if pc.WantsStatus? then (s.(cache := Some(id)), Some(Looking(s.cached.generation, s.cached.hash)))
      // `shutdown_verified` lets go of the cache before it reads the contract.
      else (s, Some(Stopping(pc.began, s.cached.generation, s.cached.hash, s.cached.background)))
    case Report(_) =>
      var stops := pc.Stopping? && pc.background && pc.generation.Of? && s.contract.Some? && s.contract.value.canStop;
      var seen := s.(seen := s.seen + [View(id, pc.generation, pc.hash, s.contract, pc.Stopping?, stops)]);
      (if pc.Looking? then seen.(cache := None) else seen.(transition := None), None)
  }

  function Step(hash: string, mode: nat -> bool, s: State, a: Action): State
    requires Enabled(hash, mode, s, a)
  {
    var now := s.shared.clock + 1;
    match a
    case StartService(h, canStop) =>
      s.(shared := s.shared.(clock := now, owners := s.shared.owners + 1,
                             service := Some(Service(s.shared.owners, h, mode(s.shared.owners), canStop))))
    case StopService => s.(shared := s.shared.(clock := now, service := None))
    case Spawn(id, aim) =>
      State(s.shared.(clock := now, aims := s.shared.aims[id := aim]),
            s.threads[id := match aim case Exchange => WantsExchange case Stop => WantsStop case Status => WantsStatus])
    case _ =>
      var (shared, pc) := Effect(hash, mode, s.shared, a.id, s.threads[a.id], a);
      State(shared, if pc.Some? then s.threads[a.id := pc.value] else s.threads - {a.id})
  }

  // ---- Invariant ----

  predicate Matches(hash: string, mode: nat -> bool, c: Contract, n: Snapshot) {
    c.owner == n.owner && c.hash == hash && n.hash == hash
  }

  /** Every result took effect after the exchange began, which was after every earlier one. */
  predicate Ordered(log: seq<Event>) {
    && (forall i :: 0 <= i < |log| ==> log[i].began < log[i].at)
    && (forall i, j :: 0 <= i < j < |log| ==> log[i].at < log[j].began)
  }

  /** An observer reports for what it was started for. */
  predicate ForItsAim(aims: map<nat, Aim>, v: View) {
    v.observer in aims && aims[v.observer] == if v.asker then Stop else Status
  }

  /** The cache shows the last result. */
  predicate Shows(g: Generation, last: Event) {
    g == if last.Lost? then Unavailable else Of(last.owner)
  }

  predicate Newer(log: seq<Event>, began: nat) {
    forall i :: 0 <= i < |log| ==> log[i].at < began
  }

  /** What a thread's place says about its aim and its locks. */
  predicate Placed(s: Shared, id: nat, pc: Pc) {
    && id in s.aims && s.aims[id] == pc.Serves()
    && (pc.InTransition() <==> s.transition == Some(id))
    && (pc.InCache() <==> s.cache == Some(id))
  }

  predicate Local(hash: string, mode: nat -> bool, s: Shared, id: nat, pc: Pc) {
    Placed(s, id, pc) && Knows(hash, mode, s, pc)
  }

  /** What one thread may rely on. */
  predicate Knows(hash: string, mode: nat -> bool, s: Shared, pc: Pc) {
    && (pc.InTransition() ==> pc.began <= s.clock && Newer(s.log, pc.began) && s.cached.sampled < pc.began)
    && (pc.Sampled? || pc.Comparing? || pc.Agreed? || pc.Writing? || pc.Replacing? ==>
          pc.snapshot.hash == hash && pc.snapshot.background == mode(pc.snapshot.owner) && pc.began < pc.snapshot.sampled <= s.clock)
    && (pc.Comparing? ==> pc.generation == s.cached.generation && pc.contract == s.contract)
    && (pc.Agreed? || pc.Writing? || pc.Replacing? ==> Matches(hash, mode, pc.agreed, pc.snapshot))
    && (pc.Replacing? ==> s.contract == Some(pc.agreed))
    && (pc.Forgetting? ==> s.contract == None)
    && (pc.Looking? || pc.Stopping? ==> pc.generation == s.cached.generation && pc.hash == s.cached.hash)
    && (pc.Stopping? ==> pc.background == s.cached.background)
  }

  ghost predicate Settled(hash: string, mode: nat -> bool, s: State) {
    (s.shared.cache.Some? && s.shared.cache.value in s.threads && s.threads[s.shared.cache.value].HalfDone())
    || Coherent(hash, mode, Seen(s.shared))
  }

  /** The results so far, and what the cache shows of them. */
  predicate Past(s: Shared) {
    && Ordered(s.log) && Newer(s.log, s.clock + 1) && s.cached.sampled <= s.clock
    && (s.log != [] ==> Shows(s.cached.generation, s.log[|s.log| - 1]))
  }

  /** The reports so far. */
  predicate Reports(hash: string, mode: nat -> bool, s: Shared) {
    forall i :: 0 <= i < |s.seen| ==> Coherent(hash, mode, s.seen[i]) && ForItsAim(s.aims, s.seen[i])
  }

  predicate Modes(mode: nat -> bool, s: Shared) {
    && (s.cached.generation.Of? ==> s.cached.background == mode(s.cached.generation.owner))
    && (s.service.Some? ==> s.service.value.background == mode(s.service.value.owner))
  }

  predicate History(hash: string, mode: nat -> bool, s: Shared) {
    Past(s) && Reports(hash, mode, s) && Modes(mode, s)
  }

  ghost predicate Inv(hash: string, mode: nat -> bool, s: State) {
    && (forall id <- s.threads :: Local(hash, mode, s.shared, id, s.threads[id]))
    && (s.shared.transition.Some? ==> s.shared.transition.value in s.threads)
    && (s.shared.cache.Some? ==> s.shared.cache.value in s.threads)
    && Settled(hash, mode, s) && History(hash, mode, s.shared)
    && (s.shared.service.Some? ==> s.shared.service.value.owner < s.shared.owners)
  }

  /** A step by `id` that leaves alone whatever the locks protect from it. */
  predicate Calm(s: Shared, t: Shared, id: nat) {
    && s.clock <= t.clock && t.aims == s.aims
    && (t.transition == s.transition || ((s.transition == None || s.transition == Some(id)) && (t.transition == None || t.transition == Some(id))))
    && (t.cache == s.cache || ((s.cache == None || s.cache == Some(id)) && (t.cache == None || t.cache == Some(id))))
    && (s.transition == Some(id) || t.log == s.log)
    && ((s.transition == Some(id) && s.cache == Some(id)) || (t.cached == s.cached && t.contract == s.contract))
  }

  lemma OthersKeep(hash: string, mode: nat -> bool, s: Shared, t: Shared, id: nat, other: nat, pc: Pc)
    requires Local(hash, mode, s, other, pc) && other != id && Calm(s, t, id)
    ensures Local(hash, mode, t, other, pc)
  {
  }

  lemma EffectIsCalm(hash: string, mode: nat -> bool, s: Shared, id: nat, pc: Pc, a: Action)
    requires Ready(hash, mode, s, pc, a) && Local(hash, mode, s, id, pc)
    ensures Calm(s, Effect(hash, mode, s, id, pc, a).0, id)
  {
  }

  /** A thread inside either lock finds the cache coherent, unless it is itself half way. */
  ghost predicate Trusts(hash: string, mode: nat -> bool, s: Shared, pc: Pc) {
    pc.InTransition() || pc.InCache() ==> pc.HalfDone() || Coherent(hash, mode, Seen(s))
  }

  lemma LocksEarnTrust(hash: string, mode: nat -> bool, s: State, id: nat)
    requires Inv(hash, mode, s) && id in s.threads
    ensures Trusts(hash, mode, s.shared, s.threads[id])
  {
  }

  lemma EffectKeepsHistory(hash: string, mode: nat -> bool, s: Shared, id: nat, pc: Pc, a: Action)
    requires Ready(hash, mode, s, pc, a) && Local(hash, mode, s, id, pc) && History(hash, mode, s) && Trusts(hash, mode, s, pc)
    ensures History(hash, mode, Effect(hash, mode, s, id, pc, a).0)
  {
    hide Effect, Ready, Past, Reports, Modes, Local, Trusts;
    EffectKeepsPast(hash, mode, s, id, pc, a);
    EffectKeepsReports(hash, mode, s, id, pc, a);
  }

  lemma EffectKeepsPast(hash: string, mode: nat -> bool, s: Shared, id: nat, pc: Pc, a: Action)
    requires Ready(hash, mode, s, pc, a) && Local(hash, mode, s, id, pc) && Past(s) && Modes(mode, s)
    ensures var t := Effect(hash, mode, s, id, pc, a).0; Past(t) && Modes(mode, t)
  {
    if a.WriteCache? {
      ResultKeepsPast(hash, mode, s, id, pc, a);
    } else {
      assert var t := Effect(hash, mode, s, id, pc, a).0; t.log == s.log && t.cached == s.cached && t.service == s.service;
    }
  }

  /** A result takes effect after everything it could be confused with. */
  lemma ResultKeepsPast(hash: string, mode: nat -> bool, s: Shared, id: nat, pc: Pc, a: Action)
    requires Ready(hash, mode, s, pc, a) && Local(hash, mode, s, id, pc) && Past(s) && Modes(mode, s) && a.WriteCache?
    ensures var t := Effect(hash, mode, s, id, pc, a).0; Past(t) && Modes(mode, t)
  {
    hide Placed, Matches;
  }

  lemma EffectKeepsReports(hash: string, mode: nat -> bool, s: Shared, id: nat, pc: Pc, a: Action)
    requires Ready(hash, mode, s, pc, a) && Local(hash, mode, s, id, pc) && History(hash, mode, s) && Trusts(hash, mode, s, pc)
    ensures Reports(hash, mode, Effect(hash, mode, s, id, pc, a).0)
  {
    hide Past, Newer;
  }

  lemma EffectIsLocal(hash: string, mode: nat -> bool, s: Shared, id: nat, pc: Pc, a: Action)
    requires Ready(hash, mode, s, pc, a) && Local(hash, mode, s, id, pc) && History(hash, mode, s) && Trusts(hash, mode, s, pc)
    ensures var (t, next) := Effect(hash, mode, s, id, pc, a);
            if next.Some? then Local(hash, mode, t, id, next.value) else t.transition != Some(id) && t.cache != Some(id)
  {
    hide Effect, Ready, History, Placed, Knows, Coherent;
    EffectPlaces(hash, mode, s, id, pc, a);
    EffectKnows(hash, mode, s, id, pc, a);
  }

  lemma EffectPlaces(hash: string, mode: nat -> bool, s: Shared, id: nat, pc: Pc, a: Action)
    requires Ready(hash, mode, s, pc, a) && Placed(s, id, pc)
    ensures var (t, next) := Effect(hash, mode, s, id, pc, a);
            if next.Some? then Placed(t, id, next.value) else t.transition != Some(id) && t.cache != Some(id)
  {
  }

  lemma EffectKnows(hash: string, mode: nat -> bool, s: Shared, id: nat, pc: Pc, a: Action)
    requires Ready(hash, mode, s, pc, a) && Local(hash, mode, s, id, pc) && History(hash, mode, s) && Trusts(hash, mode, s, pc)
    ensures var (t, next) := Effect(hash, mode, s, id, pc, a); next.Some? ==> Knows(hash, mode, t, next.value)
  {
    hide Ordered, ForItsAim, Shows;
  }

  lemma EffectSettles(hash: string, mode: nat -> bool, s: Shared, id: nat, pc: Pc, a: Action)
    requires Ready(hash, mode, s, pc, a) && Local(hash, mode, s, id, pc)
    ensures var (t, next) := Effect(hash, mode, s, id, pc, a);
            && (pc.HalfDone() ==> Coherent(hash, mode, Seen(t)) && next.None?)
            && (!pc.HalfDone() ==> Seen(t) == Seen(s) || (next.Some? && next.value.HalfDone() && t.cache == Some(id)))
            && t.service == s.service && t.owners == s.owners
            && (t.transition == s.transition || t.transition == Some(id) || t.transition == None)
            && (t.cache == s.cache || (t.cache == Some(id) && s.cache == None) || t.cache == None)
            && s.cached.sampled <= t.cached.sampled
  {
    hide Newer;
  }

  lemma ThreadKeeps(hash: string, mode: nat -> bool, s: State, a: Action)
    requires Inv(hash, mode, s) && Enabled(hash, mode, s, a) && !a.StartService? && !a.StopService? && !a.Spawn?
    ensures Inv(hash, mode, Step(hash, mode, s, a))
  {
    hide Effect, Ready, Local, History, Coherent;
    var id, pc := a.id, s.threads[a.id];
    LocksEarnTrust(hash, mode, s, id);
    EffectIsCalm(hash, mode, s.shared, id, pc, a);
    EffectKeepsHistory(hash, mode, s.shared, id, pc, a);
    EffectIsLocal(hash, mode, s.shared, id, pc, a);
    EffectSettles(hash, mode, s.shared, id, pc, a);
    var t := Step(hash, mode, s, a);
    forall other <- t.threads
      ensures Local(hash, mode, t.shared, other, t.threads[other])
    {
      if other != id {
        OthersKeep(hash, mode, s.shared, t.shared, id, other, s.threads[other]);
      }
    }
  }

  /** Time passes, services come and go, threads start: nothing a thread relies on changes. */
  lemma WorldTurns(hash: string, mode: nat -> bool, s: Shared, t: Shared)
    requires t == s.(clock := s.clock + 1, service := t.service, owners := t.owners, aims := t.aims)
    requires forall id <- s.aims :: id in t.aims && t.aims[id] == s.aims[id]
    requires t.service.Some? ==> t.service.value.background == mode(t.service.value.owner)
    ensures History(hash, mode, s) ==> History(hash, mode, t)
    ensures forall id, pc :: Local(hash, mode, s, id, pc) ==> Local(hash, mode, t, id, pc)
  {
    hide Coherent;
  }

  lemma WorldKeeps(hash: string, mode: nat -> bool, s: State, a: Action)
    requires Inv(hash, mode, s) && Enabled(hash, mode, s, a) && (a.StartService? || a.StopService? || a.Spawn?)
    ensures Inv(hash, mode, Step(hash, mode, s, a))
  {
    var t := Step(hash, mode, s, a);
    WorldTurns(hash, mode, s.shared, t.shared);
    if a.Spawn? {
      assert s.shared.transition != Some(a.id) && s.shared.cache != Some(a.id);
      assert Local(hash, mode, t.shared, a.id, t.threads[a.id]);
    }
    hide Local, History, Coherent;
  }

  lemma StepKeeps(hash: string, mode: nat -> bool, s: State, a: Action)
    requires Inv(hash, mode, s) && Enabled(hash, mode, s, a)
    ensures Inv(hash, mode, Step(hash, mode, s, a))
    ensures s.shared.cached.sampled <= Step(hash, mode, s, a).shared.cached.sampled
  {
    hide Inv, Effect, Ready, Local;
    if a.StartService? || a.StopService? || a.Spawn? {
      WorldKeeps(hash, mode, s, a);
    } else {
      ThreadKeeps(hash, mode, s, a);
      HoldsLocally(hash, mode, s, a.id);
      EffectSettles(hash, mode, s.shared, a.id, s.threads[a.id], a);
    }
  }

  lemma HoldsLocally(hash: string, mode: nat -> bool, s: State, id: nat)
    requires Inv(hash, mode, s) && id in s.threads
    ensures Local(hash, mode, s.shared, id, s.threads[id])
  {
  }

  predicate Feasible(hash: string, mode: nat -> bool, s: State, run: seq<Action>)
    decreases |run|
  {
    |run| == 0 || (Enabled(hash, mode, s, run[0]) && Feasible(hash, mode, Step(hash, mode, s, run[0]), run[1..]))
  }

  function After(hash: string, mode: nat -> bool, s: State, run: seq<Action>): State
    requires Feasible(hash, mode, s, run)
    decreases |run|
  {
    if |run| == 0 then s else After(hash, mode, Step(hash, mode, s, run[0]), run[1..])
  }

  lemma {:induction false} RunKeeps(hash: string, mode: nat -> bool, s: State, run: seq<Action>)
    requires Inv(hash, mode, s) && Feasible(hash, mode, s, run)
    ensures Inv(hash, mode, After(hash, mode, s, run))
    ensures s.shared.cached.sampled <= After(hash, mode, s, run).shared.cached.sampled
    decreases |run|
  {
    hide Inv, Step, Enabled;
    if |run| > 0 {
      StepKeeps(hash, mode, s, run[0]);
      RunKeeps(hash, mode, Step(hash, mode, s, run[0]), run[1..]);
    }
  }

  /** In every interleaving after `connect`, every observer saw no contract with no generation, or
      a contract negotiated with exactly the cached generation and executable; and whoever finds
      the cache lock free would see the same. A stop that is wanted is asked if and only if the
      generation is a background service whose own contract offers it. */
  lemma ObserversSeeCoherentPairs(hash: string, mode: nat -> bool, s: State, run: seq<Action>)
    requires Connected(hash, mode, s) && Feasible(hash, mode, s, run)
    ensures var t := After(hash, mode, s, run).shared;
            && (forall i :: 0 <= i < |t.seen| ==> Coherent(hash, mode, t.seen[i]) && ForItsAim(t.aims, t.seen[i]))
            && (t.cache.None? ==> Coherent(hash, mode, Seen(t)))
  {
    RunKeeps(hash, mode, s, run);
  }

  /** Results take effect in the order their exchanges began, never overlapping: a late older
      success or failure cannot replace a newer one, the cache shows the last result, and the sample
      shown is never older. */
  lemma NewerResultsWin(hash: string, mode: nat -> bool, s: State, run: seq<Action>, more: seq<Action>)
    requires Connected(hash, mode, s) && Feasible(hash, mode, s, run) && Feasible(hash, mode, After(hash, mode, s, run), more)
    ensures Ordered(After(hash, mode, s, run).shared.log)
    ensures var t := After(hash, mode, s, run).shared; t.log != [] ==> Shows(t.cached.generation, t.log[|t.log| - 1])
    ensures After(hash, mode, s, run).shared.cached.sampled <= After(hash, mode, After(hash, mode, s, run), more).shared.cached.sampled
  {
    RunKeeps(hash, mode, s, run);
    RunKeeps(hash, mode, After(hash, mode, s, run), more);
  }
}
