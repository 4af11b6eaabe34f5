/** The CI journal (scripts/weavelo_ci.py, `run`, `run_locked` and `exclusive`): any number of
    processes race for the lock directory, read, record, launch and write; each may die anywhere. */
module CiRun {
  import opened Faults

  /** What the journal says about a stage. Its key is a digest of specification and step. */
  datatype Record = Running | Completed | Failed | OutcomeUnknown

  /** A stage: the digest of specification and step, and whether the step acts outside this machine. */
  datatype Key = Key(digest: nat, external: bool)
  type Stages = map<Key, Record>

  /** Where a process is. From `Locked` on it owns the lock directory; `stages` is its own copy
      of the journal, which its writes put back whole. `Leaving` carries what it reports, or
      nothing if it raises. */
  datatype Pc =
    | Wants(key: Key)
    | Locked(key: Key)
    | Deciding(key: Key, stages: Stages)
    | Recorded(key: Key, stages: Stages)
    | Ran(key: Key, stages: Stages, record: Record)
    | Leaving(key: Key, report: Option<Record>)

  /** `launched` lists every command started; `succeeded`, `failed` and `interrupted` hold the keys of
      those that were seen to exit with or without success, or not seen to exit; `reported` those
      reported as completed; `died` the processes that died. */
  datatype State = State(
    lock: Option<nat>, stages: Stages, processes: map<nat, Pc>, launched: seq<Key>, succeeded: set<Key>, failed: set<Key>,
    interrupted: set<Key>, reported: set<Key>, died: set<nat>)

  datatype Action =
    | Begin(id: nat, key: Key)
    | TakeLock(id: nat)
    | Refuse(id: nat)
    | Read(id: nat)
    | Record(id: nat, written: bool, raised: bool)
    | Launch(id: nat, succeeded: bool)
    | Interrupt(id: nat, launched: bool)
    | Write(id: nat, written: bool)
    | Unlock(id: nat)
    | Die(id: nat)
    | ClearAbandonedLock

  function Start(): State { State(None, map[], map[], [], {}, {}, {}, {}, {}) }

  predicate Enabled(s: State, a: Action) {
    if a.Begin? then a.id !in s.processes && s.lock != Some(a.id) && a.id !in s.died
    else if a.ClearAbandonedLock? then s.lock.Some? && s.lock.value !in s.processes
    else a.id in s.processes && Ready(s, s.processes[a.id], a)
  }

  predicate Ready(s: State, pc: Pc, a: Action) {
    match a
    case TakeLock(_) => pc.Wants? && s.lock.None?
    case Refuse(_) => pc.Wants? && s.lock.Some?
    case Read(_) => pc.Locked?
    case Record(_, written, raised) => pc.Deciding? && (written || raised)
    case Launch(_, _) => pc.Recorded?
    case Interrupt(_, _) => pc.Recorded?
    case Write(_, _) => pc.Ran?
    case Unlock(_) => pc.Leaving?
    case Die(_) => true
    case _ => false
  }

  function Goto(s: State, id: nat, pc: Pc): State { s.(processes := s.processes[id := pc]) }

  function End(s: State, id: nat): State { s.(processes := s.processes - {id}) }

  function Step(s: State, a: Action): State
    requires Enabled(s, a)
  {
    match a
    case Begin(id, key) => Goto(s, id, Wants(key))
    case ClearAbandonedLock => s.(lock := None)
    case TakeLock(id) => Goto(s, id, Locked(s.processes[id].key)).(lock := Some(id))
    case Refuse(id) => End(s, id)
    case Read(id) =>
      // A stage with any record is reported or refused, never started.
      var key := s.processes[id].key;
      if key !in s.stages then Goto(s, id, Deciding(key, s.stages))
      else Goto(s, id, Leaving(key, if s.stages[key].Completed? then Some(Completed) else None))
    case Record(id, written, raised) =>
      var key := s.processes[id].key;
      var stages := s.processes[id].stages[key := Running];
      Goto(if written then s.(stages := stages) else s, id, if raised then Leaving(key, None) else Recorded(key, stages))
    case Launch(id, succeeded) =>
      var pc := s.processes[id];
      Goto(s, id, Ran(pc.key, pc.stages, if succeeded then Completed else if pc.key.external then OutcomeUnknown else Failed))
        .(launched := s.launched + [pc.key],
          succeeded := if succeeded then s.succeeded + {pc.key} else s.succeeded,
          failed := if succeeded then s.failed else s.failed + {pc.key})
    case Interrupt(id, launched) =>
      // The log could not be created, or waiting for the command was interrupted.
      var pc := s.processes[id];
      Goto(s, id, Ran(pc.key, pc.stages, OutcomeUnknown))
        .(launched := if launched then s.launched + [pc.key] else s.launched, interrupted := s.interrupted + {pc.key})
    case Write(id, written) =>
      var pc := s.processes[id];
      Goto(if written then s.(stages := pc.stages[pc.key := pc.record]) else s, id,
           Leaving(pc.key, if written && pc.record.Completed? then Some(Completed) else None))
    case Unlock(id) =>
      var pc := s.processes[id];
      End(s, id).(lock := None, reported := if pc.report.Some? then s.reported + {pc.key} else s.reported)
    case Die(id) => End(s, id).(died := s.died + {id})
  }

  /** What the owner of the lock may rely on. */
  predicate Local(s: State, id: nat, pc: Pc) {
    && (!pc.Wants? <==> s.lock == Some(id))
    && (pc.Deciding? ==> pc.stages == s.stages && pc.key !in s.stages)
    && (pc.Recorded? ==> pc.stages == s.stages && pc.key !in s.launched && s.stages[pc.key := Running] == s.stages)
    && (pc.Ran? ==> pc.stages == s.stages && pc.key in s.stages && !pc.record.Running? && s.stages[pc.key].Running?
                    && (pc.record.Completed? ==> pc.key in s.succeeded) && (pc.record.Failed? ==> pc.key in s.failed)
                    && (pc.record.Failed? ==> !pc.key.external)
                    && (pc.record.OutcomeUnknown? ==> pc.key in s.interrupted || (pc.key.external && pc.key in s.failed)))
    && (pc.Leaving? && pc.report.Some? ==> pc.report == Some(Completed) && pc.key in s.stages && s.stages[pc.key].Completed?)
  }

  /** Every launched stage is on record, a stage's outcome is what was seen of its command, what is
      reported is recorded, and none was launched twice. */
  predicate Honest(s: State) {
    Launches(s) && Outcomes(s) && (s.lock.Some? ==> s.lock.value in s.processes || s.lock.value in s.died)
  }

  predicate Launches(s: State) {
    && (forall key <- s.launched :: key in s.stages)
    && (forall key <- s.succeeded :: key in s.launched && key !in s.failed)
    && (forall key <- s.failed :: key in s.launched)
    && (forall i, j :: 0 <= i < j < |s.launched| ==> s.launched[i] != s.launched[j])
  }

  predicate Outcomes(s: State) {
    && (forall key <- s.stages :: s.stages[key].Completed? ==> key in s.succeeded)
    && (forall key <- s.stages :: s.stages[key].Failed? ==> key in s.failed && !key.external)
    && (forall key <- s.stages :: s.stages[key].OutcomeUnknown? ==> key in s.interrupted || (key.external && key in s.failed))
    && (forall key <- s.reported :: key in s.stages && s.stages[key].Completed?)
  }

  ghost predicate Inv(s: State) {
    Honest(s) && forall id <- s.processes :: Local(s, id, s.processes[id])
  }

  /** What was recorded stays recorded, and an outcome is final. */
  predicate Grows(s: State, t: State) {
    forall key <- s.stages :: key in t.stages && (s.stages[key].Running? || t.stages[key] == s.stages[key])
  }

  lemma StepIsHonest(s: State, a: Action)
    requires Inv(s) && Enabled(s, a)
    ensures Honest(Step(s, a)) && Grows(s, Step(s, a)) && s.launched <= Step(s, a).launched
  {
    StepLaunches(s, a);
    StepOutcomes(s, a);
    hide Launches, Outcomes;
  }

  lemma StepLaunches(s: State, a: Action)
    requires Inv(s) && Enabled(s, a)
    ensures Launches(Step(s, a))
  {
    hide Outcomes;
  }

  lemma StepOutcomes(s: State, a: Action)
    requires Inv(s) && Enabled(s, a)
    ensures Outcomes(Step(s, a))
  {
    hide Launches;
  }

  lemma StepIsLocal(s: State, a: Action)
    requires Inv(s) && Enabled(s, a)
    ensures var t := Step(s, a); forall id <- t.processes :: Local(t, id, t.processes[id])
  {
  }

  lemma StepKeeps(s: State, a: Action)
    requires Inv(s) && Enabled(s, a)
    ensures Inv(Step(s, a)) && Grows(s, Step(s, a)) && s.launched <= Step(s, a).launched
  {
    hide Step, Enabled, Honest, Local;
    StepIsHonest(s, a);
    StepIsLocal(s, a);
  }

  predicate Feasible(s: State, run: seq<Action>)
    decreases |run|
  {
    |run| == 0 || (Enabled(s, run[0]) && Feasible(Step(s, run[0]), run[1..]))
  }

  function After(s: State, run: seq<Action>): State
    requires Feasible(s, run)
    decreases |run|
  {
    if |run| == 0 then s else After(Step(s, run[0]), run[1..])
  }

  lemma {:induction false} RunKeeps(s: State, run: seq<Action>)
    requires Inv(s) && Feasible(s, run)
    ensures Inv(After(s, run)) && Grows(s, After(s, run)) && s.launched <= After(s, run).launched
    decreases |run|
  {
    hide Inv, Step, Enabled;
    if |run| > 0 {
      StepKeeps(s, run[0]);
      RunKeeps(Step(s, run[0]), run[1..]);
    }
  }

  /** Every interleaving, with deaths and abandoned locks cleared by hand: no stage key launches
      its command twice, a launched stage is always on record, and a stage is reported
      completed only if the journal says so and its command was launched and seen to succeed; failed
      means seen to fail on this machine, outcome unknown that it was not seen to exit or failed
      elsewhere; and the lock is held by a live process or was left by one that died. */
  lemma LaunchedAtMostOnce(run: seq<Action>)
    requires Feasible(Start(), run)
    ensures var s := After(Start(), run);
            && (forall i, j :: 0 <= i < j < |s.launched| ==> s.launched[i] != s.launched[j])
            && (forall key <- s.launched :: key in s.stages)
            && (forall key <- s.stages :: s.stages[key].Completed? ==> key in s.launched && key in s.succeeded)
            && (forall key <- s.stages :: s.stages[key].Failed? ==> key in s.failed && key !in s.succeeded && !key.external)
            && (forall key <- s.stages :: s.stages[key].OutcomeUnknown? ==>
                  key in s.interrupted || (key.external && key in s.failed))
            && (forall key <- s.reported :: key in s.stages && s.stages[key].Completed?)
            && (s.lock.Some? ==> s.lock.value in s.processes || s.lock.value in s.died)
  {
    RunKeeps(Start(), run);
  }

  /** However the run goes on, no record is lost and no outcome rewritten. */
  lemma OutcomesAreFinal(run: seq<Action>, more: seq<Action>)
    requires Feasible(Start(), run) && Feasible(After(Start(), run), more)
    ensures Grows(After(Start(), run), After(After(Start(), run), more))
  {
    RunKeeps(Start(), run);
    RunKeeps(After(Start(), run), more);
  }
}
