/** The Linux lifecycle executor (scripts/execute_linux_lifecycle.py, `execute`): every forward
    effect runs at most once per original journal, whatever fails or dies and however often
    apply and recover are invoked. */
module Lifecycle {
  import opened Faults

  datatype Effect = Stage | StopOld | Publish | StartBackground | GuiTest {
    function Place(): nat {
      match this
      case Stage => 0
      case StopOld => 1
      case Publish => 2
      case StartBackground => 3
      case GuiTest => 4
    }
  }

  /** One thing that goes wrong in an otherwise undisturbed invocation: the process dies while it
      writes a phase, the preflight or an effect raises, or the last verification does. */
  datatype Doom = Unready | DiesWriting(phase: Phase) | Fails(effect: Effect) | Unverified

  /** The forward effects in their order. */
  const Script := [Stage, StopOld, Publish, StartBackground, GuiTest]

  datatype Phase =
    | Prepared | StopRequested | OldStopped | ExchangeRequested | UnitPublished | BackgroundStartRequested
    | BackgroundVerified | GuiTestRequested | GuiStarted | Committed | RolledBack | RecoveryRequired
  {
    predicate Terminal() { Committed? || RolledBack? }

    /** How many effects had begun at least, and at most, when the phase is the durable one. */
    function Least(): nat {
      match this
      case Prepared => 0
      case StopRequested => 1
      case OldStopped | ExchangeRequested => 2
      case UnitPublished | BackgroundStartRequested => 3
      case BackgroundVerified | GuiTestRequested => 4
      case GuiStarted | Committed => 5
      case RolledBack | RecoveryRequired => 0
    }

    function Most(): nat {
      match this
      case Prepared => 1
      case StopRequested | OldStopped => 2
      case ExchangeRequested | UnitPublished => 3
      case BackgroundStartRequested | BackgroundVerified => 4
      case _ => 5
    }
  }

  /** The transaction in the journal, with the receipts of the effects. */
  datatype State = State(plan: nat, phase: Phase, stage: bool, afterUnit: bool, background: bool, guiTest: bool, guiClosed: bool)

  /** A phase is written only with the receipts it claims. */
  predicate Receipted(s: State) {
    && (s.phase.Least() >= 1 ==> s.stage)
    && (s.phase.Least() >= 3 ==> s.afterUnit)
    && (s.phase.Least() >= 4 ==> s.background)
    && (s.phase.Committed? ==> s.guiTest && s.guiClosed)
  }

  class Executor {
    /** Whether anything may fail in the current invocation, or only what `doom` says; and whether
        the backend's own rollback refuses what it finds. */
    var disturbed: bool
    var doom: Option<Doom>
    var refuses: bool
    const installed: bool

    // Durable: the lifecycle transaction inside the installation journal, and whether an
    // interrupted write left the scratch file beside it.
    var journal: Option<State>
    var leftover: bool

    var memory: State

    /** Every forward effect ever begun. */
    ghost var begun: seq<Effect>

    constructor (installed: bool, leftover: bool, scratch: State)
      ensures Inv() && journal == None && begun == [] && this.installed == installed && this.leftover == leftover
    {
      this.installed, this.leftover := installed, leftover;
      disturbed, doom, refuses, journal, memory, begun := true, None, false, None, scratch, [];
    }

    /** The effects begun are a prefix of the script, as long as the durable phase says. */
    ghost predicate Inv()
      reads this
    {
      && |begun| <= 5 && begun == Script[..|begun|]
      && (journal.None? ==> begun == [])
      && (journal.Some? ==>
            && Receipted(journal.value)
            && journal.value.phase.Least() <= |begun| <= journal.value.phase.Most())
    }

    /** Nothing fails in the current invocation. */
    predicate Calm()
      reads this
    {
      !disturbed && doom.None?
    }

    /** No process dies and nothing fails but perhaps one effect. */
    predicate Orderly()
      reads this
    {
      !disturbed && (doom.Some? ==> !doom.value.DiesWriting?)
    }

    predicate Failing()
      reads this
    {
      Orderly() && doom.Some? && !doom.value.Unready?
    }

    /** The transaction in which the doomed effect was the last to begin. */
    ghost function FailedPrefix(): seq<Effect>
      reads this
      requires Failing()
    {
      if doom.value.Fails? then Script[..doom.value.effect.Place() + 1] else Script
    }

    /** `save`: memory changes first. The journal is replaced as a whole, but through a scratch file
        of a fixed name that an interrupted write leaves behind, and then no later write succeeds. */
    method Save(phase: Phase) returns (o: Outcome)
      requires Inv() && (journal.None? ==> phase.Prepared?)
      requires phase.Least() <= |begun| <= phase.Most() && Receipted(memory.(phase := phase))
      modifies this`journal, this`memory, this`leftover
      ensures Inv() && memory == old(memory).(phase := phase)
      ensures journal == Some(memory) || journal == old(journal)
      ensures o.Done? ==> journal == Some(memory) && !leftover
      ensures old(leftover) ==> !o.Done? && leftover && journal == old(journal)
      ensures !disturbed && doom != Some(DiesWriting(phase)) && !old(leftover) ==> o.Done?
      ensures !disturbed && doom == Some(DiesWriting(phase)) && !old(leftover) ==> o.Died? && leftover && journal == old(journal)
    {
      memory := memory.(phase := phase);
      var fate := Draw(disturbed);
      if leftover {
        return if fate.Ends().Died? then Died else Raised;
      }
      var left: bool := *;
      if !disturbed && doom == Some(DiesWriting(phase)) {
        fate, left := DieBefore, true;
      }
      if !fate.Before() {
        journal := Some(memory);
      } else {
        leftover := left;
      }
      o := fate.Ends();
    }

    /** A forward effect of the backend. It begins only when it is the next of the script and
        the durable phase announces it. */
    method Perform(effect: Effect) returns (o: Outcome)
      requires Inv() && journal == Some(memory) && |begun| < memory.phase.Most()
      requires Script[|begun|] == effect
      modifies this`begun
      ensures Inv() && begun == old(begun) + [effect]
      ensures !disturbed ==> o == if doom == Some(Fails(effect)) then Raised else Done
    {
      begun := begun + [effect];
      if !disturbed && doom == Some(Fails(effect)) {
        return Raised;
      }
      o := Observe(disturbed);
    }

    /** `backend.rollback` may refuse; if it succeeds the phase is recorded. */
    method Rollback() returns (o: Outcome)
      requires Inv() && journal.Some?
      modifies this`journal, this`memory, this`leftover
      ensures Inv() && journal.Some? && memory == old(memory).(phase := memory.phase)
      ensures o.Done? ==> journal == Some(memory) && memory.phase.RolledBack?
      ensures journal == old(journal) || (journal == Some(memory) && memory.phase.RolledBack?)
      ensures old(leftover) ==> !o.Done? && leftover && journal == old(journal)
      ensures Orderly() && !old(leftover) ==> !leftover && o == (if refuses then Raised else Done) && (refuses ==> journal == old(journal))
    {
      if refuses {
        return Raised;
      }
      :- Observe(disturbed);
      o := Save(RolledBack);
    }

    /** The effects from place `first` up to `next` were tried: a doomed one among them raised and is
        the last to have begun. */
    ghost predicate Decided(o: Outcome, first: nat, next: nat)
      reads this
    {
      && !leftover
      && if doom.Some? && doom.value.Fails? && first <= doom.value.effect.Place() < next
         then o.Raised? && begun == Script[..doom.value.effect.Place() + 1]
         else o.Done?
    }

    /** From the durable `prepared` to the stopped old owner. */
    method StopOwner() returns (o: Outcome)
      requires Inv() && journal == Some(memory) && memory.phase.Prepared? && begun == []
      modifies this`journal, this`memory, this`begun, this`leftover
      ensures Inv() && journal.Some? && memory.plan == old(memory).plan && journal.value.plan == old(memory).plan
      ensures o.Done? ==> journal == Some(memory) && memory.phase.OldStopped? && begun == Script[..2] && !leftover
      ensures Orderly() && !old(leftover) ==> Decided(o, 0, 2)
      ensures !disturbed && doom == Some(DiesWriting(OldStopped)) && !old(leftover) ==>
                o.Died? && leftover && journal.value.phase.StopRequested? && begun == Script[..2]
    {
      o := Done;
      :- Perform(Stage);
      memory := memory.(stage := true);
      :- Save(StopRequested);
      :- Perform(StopOld);
      o := Save(OldStopped);
    }

    /** From the stopped owner to the published unit. */
    method PublishUnit() returns (o: Outcome)
      requires Inv() && journal == Some(memory) && memory.phase.OldStopped? && begun == Script[..2]
      modifies this`journal, this`memory, this`begun, this`leftover
      ensures Inv() && journal.Some? && memory.plan == old(memory).plan && journal.value.plan == old(memory).plan
      ensures o.Done? ==> journal == Some(memory) && memory.phase.UnitPublished? && begun == Script[..3] && !leftover
      ensures Orderly() && !old(leftover) ==> Decided(o, 2, 3)
    {
      o := Done;
      :- Save(ExchangeRequested);
      :- Perform(Publish);
      memory := memory.(afterUnit := true);
      o := Save(UnitPublished);
    }

    /** From the published unit to the verified background service. */
    method StartService() returns (o: Outcome)
      requires Inv() && journal == Some(memory) && memory.phase.UnitPublished? && begun == Script[..3]
      modifies this`journal, this`memory, this`begun, this`leftover
      ensures Inv() && journal.Some? && memory.plan == old(memory).plan && journal.value.plan == old(memory).plan
      ensures o.Done? ==> journal == Some(memory) && memory.phase.BackgroundVerified? && begun == Script[..4] && !leftover
      ensures Orderly() && !old(leftover) ==> Decided(o, 3, 4)
    {
      o := Done;
      :- Save(BackgroundStartRequested);
      :- Perform(StartBackground);
      memory := memory.(background := true);
      o := Save(BackgroundVerified);
    }

    /** From the verified service to the started GUI test. */
    method TestGui() returns (o: Outcome)
      requires Inv() && journal == Some(memory) && memory.phase.BackgroundVerified? && begun == Script[..4]
      modifies this`journal, this`memory, this`begun, this`leftover
      ensures Inv() && journal.Some? && memory.plan == old(memory).plan && journal.value.plan == old(memory).plan
      ensures o.Done? ==> journal == Some(memory) && memory.phase.GuiStarted? && begun == Script && !leftover
      ensures Orderly() && !old(leftover) ==> Decided(o, 4, 5)
    {
      o := Done;
      :- Save(GuiTestRequested);
      :- Perform(GuiTest);
      o := Save(GuiStarted);
    }

    /** The closed GUI and the terminal state are verified, and the transaction commits. */
    method Commit() returns (o: Outcome)
      requires Inv() && journal == Some(memory) && memory.phase.GuiStarted? && begun == Script
      modifies this`journal, this`memory, this`leftover
      ensures Inv() && journal.Some? && memory.plan == old(memory).plan && journal.value.plan == old(memory).plan
      ensures o.Done? ==> journal == Some(memory) && memory.phase.Committed?
      ensures Orderly() && !old(leftover) ==> !leftover && o == if doom == Some(Unverified) then Raised else Done
    {
      memory := memory.(guiTest := true);
      if !disturbed && doom == Some(Unverified) {
        return Raised;
      }
      :- Observe(disturbed);
      memory := memory.(guiClosed := true);
      o := Save(Committed);
    }

    method Forward() returns (o: Outcome)
      requires Inv() && journal == Some(memory) && memory.phase.Prepared? && begun == []
      modifies this`journal, this`memory, this`begun, this`leftover
      ensures Inv() && journal.Some? && memory.plan == old(memory).plan && journal.value.plan == old(memory).plan
      ensures o.Done? ==> journal == Some(memory) && memory.phase.Committed?
      ensures Calm() && !old(leftover) ==> o.Done?
      ensures Failing() && !old(leftover) ==> o.Raised? && !leftover && begun == FailedPrefix()
      ensures !disturbed && doom == Some(DiesWriting(OldStopped)) && !old(leftover) ==>
                o.Died? && leftover && journal.value.phase.StopRequested? && begun == Script[..2]
    {
      o := Done;
      :- StopOwner();
      :- PublishUnit();
      :- StartService();
      :- TestGui();
      o := Commit();
    }

    /** `execute`. An existing transaction is never carried forward: forward effects begin only
        when there was no journal, and recovery begins none. Undisturbed, a first apply commits if
        and only if no scratch file was left beside the journal; beside one nothing is recorded. If
        an effect raises, the backend's rollback is recorded, or that recovery is required. */
    method Execute(plan: nat, recover: bool) returns (o: Outcome)
      requires Inv()
      modifies this`journal, this`memory, this`begun, this`leftover
      ensures Inv()
      ensures old(journal).Some? || recover || !installed ==> begun == old(begun)
      ensures old(journal).Some? ==> journal.Some? && journal.value.plan == old(journal).value.plan
      ensures old(journal.Some? && (journal.value.phase.Terminal() || journal.value.plan != plan)) ==> journal == old(journal)
      ensures o.Done? ==> journal.Some? && journal.value.phase.Terminal() && journal.value.plan == plan
      ensures old(leftover) ==> leftover && journal == old(journal) && begun == old(begun)
      ensures !disturbed && installed && old(journal).Some? && old(journal).value.plan == plan && old(journal).value.phase.Terminal() ==>
                o.Done?
      ensures old(journal).Some? && !recover && !old(journal).value.phase.Terminal() ==> o.Raised? && journal == old(journal)
      ensures old(journal).None? && recover ==> o.Raised? && journal.None?
      ensures !disturbed && doom == Some(Unready) && old(journal).None? ==> o.Raised? && journal.None? && begun == old(begun)
      ensures Failing() && installed && !recover && old(journal).None? && !old(leftover) ==>
                && o.Raised? && journal.Some? && journal.value.plan == plan && begun == FailedPrefix()
                && (if refuses then journal.value.phase.RecoveryRequired? else journal.value.phase.RolledBack?)
      ensures Calm() && installed && recover && old(journal).Some? && old(journal).value.plan == plan
              && !old(journal).value.phase.Terminal() ==>
                (o.Done? <==> !refuses && !old(leftover)) && (o.Done? ==> journal.value.phase.RolledBack?)
      ensures Calm() && installed && !recover && old(journal).None? ==>
                && (o.Done? <==> !old(leftover))
                && (o.Done? ==> journal.value.phase.Committed? && begun == Script)
      ensures !disturbed && doom == Some(DiesWriting(OldStopped)) && installed && !recover && old(journal).None? && !old(leftover) ==>
                o.Died? && leftover && journal.Some? && journal.value.phase.StopRequested? && begun == Script[..2]
    {
      if !installed {
        return Raised;
      }
      if journal.Some? {
        if journal.value.plan != plan {
          return Raised;
        }
        if journal.value.phase.Terminal() {
          o := Observe(disturbed);
          return;
        }
        if !recover {
          return Raised;
        }
        memory := journal.value;
        o := Rollback();
        return;
      }
      if recover {
        return Raised;
      }
      o := Begin(plan);
    }

    /** The first apply of a plan: nothing was recorded before. */
    method Begin(plan: nat) returns (o: Outcome)
      requires Inv() && journal.None?
      modifies this`journal, this`memory, this`begun, this`leftover
      ensures Inv() && (journal.Some? ==> journal.value.plan == plan)
      ensures o.Done? ==> journal.Some? && journal.value.phase.Committed?
      ensures old(leftover) ==> leftover && journal.None? && begun == old(begun) && !o.Done?
      ensures !disturbed && doom == Some(Unready) ==> o.Raised? && journal.None? && begun == old(begun)
      ensures Failing() && !old(leftover) ==>
                && o.Raised? && journal.Some? && begun == FailedPrefix()
                && (if refuses then journal.value.phase.RecoveryRequired? else journal.value.phase.RolledBack?)
      ensures Calm() && !old(leftover) ==> o.Done?
      ensures !disturbed && doom == Some(DiesWriting(OldStopped)) && !old(leftover) ==>
                o.Died? && leftover && journal.Some? && journal.value.phase.StopRequested? && begun == Script[..2]
    {
      if !disturbed && doom == Some(Unready) {
        return Raised;
      }
      :- Observe(disturbed);
      memory := State(plan, Prepared, false, false, false, false, false);
      :- Save(Prepared);
      o := Forward();
      if o.Raised? {
        var undone := Rollback();
        if undone.Raised? {
          undone := Save(RecoveryRequired);
        }
        o := if undone.Died? then Died else Raised;
      }
    }

    /** Any history of invocations: each forward effect began at most once, in order, and a
        committed transaction is one in which all of them ran. */
    method AnyHistory(requests: seq<(nat, bool)>)
      requires Inv()
      modifies this
      ensures Inv() && |begun| <= |Script| && begun == Script[..|begun|]
      ensures forall i, j :: 0 <= i < j < |begun| ==> begun[i] != begun[j]
      ensures journal.Some? && journal.value.phase.Committed? ==>
                begun == Script && journal.value.guiClosed && journal.value.afterUnit && journal.value.background
    {
      for i := 0 to |requests|
        invariant Inv()
      {
        disturbed, doom, refuses := *, *, *;
        var o := Execute(requests[i].0, requests[i].1);
      }
    }

    /** Beside a leftover scratch file no request records anything or begins anything. */
    method StuckForever(requests: seq<(nat, bool)>)
      requires Inv() && leftover
      modifies this
      ensures Inv() && leftover && journal == old(journal) && begun == old(begun)
    {
      for i := 0 to |requests|
        invariant Inv() && leftover && journal == old(journal) && begun == old(begun)
      {
        disturbed, doom, refuses := *, *, *;
        var o := Execute(requests[i].0, requests[i].1);
      }
    }
  }

  /** The promise that recovery finishes an interrupted request is false. This is a run of the code:
      the process dies while it writes that the old owner is stopped. By `StuckForever` the request
      then stays unfinished in the journal for good. */
  method InterruptedRecord(plan: nat, scratch: State) returns (executor: Executor)
    ensures fresh(executor) && executor.Inv() && executor.leftover
    ensures executor.journal.Some? && executor.journal.value.phase.StopRequested? && executor.begun == Script[..2]
  {
    executor := new Executor(true, false, scratch);
    executor.disturbed, executor.doom := false, Some(DiesWriting(OldStopped));
    var o := executor.Execute(plan, false);
  }
}
