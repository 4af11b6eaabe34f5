/** The macOS in-place upgrade (scripts/install_macos_unified.py): `install`, the handler it
    falls into, and `recover_interrupted`. Every method may end early because an effect
    raised or the process died, so a postcondition of a method is a statement about every
    crash point inside it. */
module MacUpgrade {
  import opened Faults

  datatype App = App(build: nat, bytes: nat)

  /** An app directory: complete, or half deleted by an interrupted recursive removal. */
  datatype Tree = Whole(app: App) | Torn

  datatype Slot = Target | Backup | Staging

  datatype Layout = Layout(target: Option<Tree>, backup: Option<Tree>, staging: Option<Tree>) {
    function At(slot: Slot): Option<Tree> {
      match slot
      case Target => target
      case Backup => backup
      case Staging => staging
    }

    function Put(slot: Slot, tree: Option<Tree>): Layout {
      match slot
      case Target => this.(target := tree)
      case Backup => this.(backup := tree)
      case Staging => this.(staging := tree)
    }
  }

  datatype Phase =
    | Prepared | StopRequested | ServiceStopped | MoveOldRequested | OldMoved | MoveNewRequested
    | NewInstalled | VerifyNewRequested | NewVerified | LifecycleWriteRequested | LifecycleWritten
    | IdentityWriteRequested | IdentityWritten | StartRequested | Started | HealthRequested
    | RollbackStopRequested | RollbackLifecycleRequested | RollbackIdentityRequested
    | RollbackCandidateMoveRequested | RollbackOldRestoreRequested | RollbackStartRequested
    | RecoveryRequired | Completed | RolledBack
  {
    predicate Terminal() { Completed? || RolledBack? }

    predicate Uncertain() {
      StopRequested? || StartRequested? || RollbackStopRequested? || RollbackStartRequested?
    }
  }

  /** The launch-agent half of a transaction: its bytes before and after, and whether the
      role marker existed before. */
  datatype Lifecycle = Lifecycle(before: nat, after: nat, markerBefore: bool)

  /** The journal. Every production transaction is identity-bound, so it always carries the
      release state before (possibly none) and after. */
  datatype Document = Document(
    phase: Phase, uncertain: bool, previous: App, candidate: App,
    lifecycle: Option<Lifecycle>, releaseBefore: Option<nat>, releaseAfter: nat)

  /** Two documents of one transaction: they differ in progress only. */
  predicate Same(d: Document, e: Document) {
    d == e.(phase := d.phase, uncertain := d.uncertain)
  }

  /** The intent that must be on disk before an app moves. */
  predicate RenameIntent(phase: Phase, source: Slot, destination: Slot) {
    match (source, destination)
    case (Target, Backup) => phase.MoveOldRequested?
    case (Staging, Target) => phase.MoveNewRequested?
    case (Target, Staging) => phase.RollbackCandidateMoveRequested?
    case (Backup, Target) => phase.RollbackOldRestoreRequested?
    case _ => false
  }

  // ---- Where the two apps can be ----

  predicate AtRest(d: Document, l: Layout) {
    && l.target == Some(Whole(d.previous))
    && l.backup == None
    && (l.staging.None? || l.staging == Some(Torn) || l.staging == Some(Whole(d.candidate)))
  }

  predicate Between(d: Document, l: Layout) {
    l == Layout(None, Some(Whole(d.previous)), Some(Whole(d.candidate)))
  }

  predicate Swapped(d: Document, l: Layout) {
    l == Layout(Some(Whole(d.candidate)), Some(Whole(d.previous)), None)
  }

  // ---- The launch agent, role marker and release state that go with the app ----

  predicate BeforeTuple(d: Document, plist: nat, marker: bool, release: Option<nat>) {
    && (d.lifecycle.Some? ==> plist == d.lifecycle.value.before && marker == d.lifecycle.value.markerBefore)
    && release == d.releaseBefore
  }

  predicate AfterTuple(d: Document, plist: nat, marker: bool, release: Option<nat>) {
    && (d.lifecycle.Some? ==> plist == d.lifecycle.value.after && marker)
    && release == Some(d.releaseAfter)
  }

  /** A mixture that can occur only while the candidate is at the target. */
  predicate MixedTuple(d: Document, plist: nat, marker: bool, release: Option<nat>) {
    && (d.lifecycle.Some? ==>
          && (plist == d.lifecycle.value.before || plist == d.lifecycle.value.after)
          && (d.lifecycle.value.markerBefore ==> marker))
    && (release == d.releaseBefore || release == Some(d.releaseAfter))
  }

  /** What the disk can look like for a journal, whatever happened before. */
  predicate Consistent(d: Document, l: Layout, plist: nat, marker: bool, release: Option<nat>, loaded: bool) {
    && d.previous.build < d.candidate.build
    && (AtRest(d, l) || Between(d, l) || Swapped(d, l))
    && MixedTuple(d, plist, marker, release)
    && (!Swapped(d, l) ==> BeforeTuple(d, plist, marker, release))
    && (d.phase.Prepared? ==> AtRest(d, l) && loaded && !d.uncertain)
    && (d.phase.RolledBack? ==> AtRest(d, l) && l.staging.None? && loaded)
    && (d.phase.Completed? ==> Swapped(d, l) && AfterTuple(d, plist, marker, release) && loaded)
  }

  /** The previous app is never lost or duplicated, and the candidate never duplicated. */
  predicate Conserved(d: Document, l: Layout) {
    && (l.target == Some(Whole(d.previous)) <==> l.backup != Some(Whole(d.previous)))
    && !(l.target == Some(Whole(d.candidate)) && l.staging == Some(Whole(d.candidate)))
    && (l.target.None? ==> l.staging == Some(Whole(d.candidate)))
  }

  /** A recovery may proceed from what it reads: no service command of unknown outcome, no
      half-deleted staging copy. A caller can check this before running it. */
  predicate Recoverable(d: Document, l: Layout) {
    !d.phase.Uncertain() && !d.uncertain && l.staging != Some(Torn)
  }

  /** A rollback may touch only these: a release state the journal knows, no unknown service command,
      and the two apps whole and where some step of the transaction leaves them. */
  predicate Diagnosable(d: Document, l: Layout, release: Option<nat>) {
    var previous, candidate := Some(Whole(d.previous)), Some(Whole(d.candidate));
    && (release == Some(d.releaseAfter) || (release == d.releaseBefore && !d.phase.Completed?))
    && !d.phase.Uncertain() && !d.uncertain
    && (l.staging == None || l.staging == candidate)
    && (if l.target == previous then l.backup == None else l.backup == previous && (l.target == None || l.target == candidate))
    && (l.target == candidate ==> l.staging == None)
    && (d.phase.Prepared? ==> l == Layout(previous, None, candidate))
  }

  /** From a reachable state all of that amounts to two conditions. */
  lemma DiagnosisDecides(d: Document, l: Layout, plist: nat, marker: bool, release: Option<nat>, loaded: bool, phase: Phase)
    requires Consistent(d.(phase := phase), l, plist, marker, release, loaded)
    requires d.phase.Prepared? ==> phase.Prepared?
    requires d.phase.Completed? ==> release == Some(d.releaseAfter)
    ensures Diagnosable(d, l, release) <==> Recoverable(d, l) && !StagingAlreadyCleaned(d, l)
  {
  }

  /** The one case that costs a run: a recovery from `Prepared` removed the staging copy and
      died before its last journal write. */
  predicate StagingAlreadyCleaned(d: Document, l: Layout) {
    d.phase.Prepared? && l.staging.None?
  }

  /** The steps of `install` between its first journal write and its commit that can fail. */
  datatype Hazard = Stopping | Idling | MovingOld | MovingNew | Verifying | WritingAgent | WritingIdentity | Starting | Checking {
    /** A failed service command is of unknown outcome. */
    predicate Uncertain() { Stopping? || Starting? }

    /** Stopping the old app, exchanging the apps, writing what goes with them, starting the new one. */
    function Part(): nat {
      if Stopping? || Idling? then 0 else if WritingAgent? || WritingIdentity? then 2 else if Starting? || Checking? then 3 else 1
    }
  }

  /** One thing that goes wrong in an otherwise undisturbed invocation: the process dies right
      after the first journal write, or in the middle of removing the staging copy, or a look at the
      system before the first write, one step of the upgrade or one step of a rollback raises. */
  datatype Doom = Unready | AfterFirstWrite | InsideRemoval | Fails(hazard: Hazard) | RecoveryFails(undo: Undo)

  /** The steps of a rollback that can fail. */
  datatype Undo = Unloading | Locking | RestoringAgent | RestoringIdentity | ReturningCandidate | ReturningPrevious
                | VerifyingPrevious | Reloading | Watching
  {
    predicate Uncertain() { Unloading? || Reloading? }
  }

  /** The steps a rollback of `d` has in a given state. Once it unloaded the service it loads it again. */
  predicate Undoes(d: Document, l: Layout, loaded: bool, undo: Undo) {
    match undo
    case Unloading => loaded
    case RestoringAgent => d.lifecycle.Some?
    case ReturningCandidate => l.target == Some(Whole(d.candidate))
    case ReturningPrevious => l.target != Some(Whole(d.previous))
    case _ => true
  }

  class Installer {
    /** Whether anything may fail in the current invocation, or only the one thing `doom` says. */
    var disturbed: bool
    var doom: Option<Doom>

    // Durable state.
    var journal: Option<Document>
    var layout: Layout
    var plist: nat
    var marker: bool
    var release: Option<nat>
    var loaded: bool

    /** The running process's document, which `checkpoint` changes before the disk, and whether it
        holds the profile lock. */
    var memory: Document
    var held: bool

    /** A service was started and not yet seen running well. */
    ghost var unproven: bool

    constructor (installed: App, plist: nat, marker: bool, release: Option<nat>, loaded: bool, scratch: Document)
      ensures Inv() && journal == None
      ensures layout == Layout(Some(Whole(installed)), None, None)
      ensures this.plist == plist && this.marker == marker && this.release == release && this.loaded == loaded
    {
      this.disturbed, doom := true, None;
      this.journal := None;
      this.layout := Layout(Some(Whole(installed)), None, None);
      this.plist, this.marker, this.release, this.loaded := plist, marker, release, loaded;
      this.memory, held, unproven := scratch, false, false;
    }

    ghost predicate Inv()
      reads this
    {
      && (journal.Some? ==> Consistent(journal.value, layout, plist, marker, release, loaded))
      && (journal.None? || journal.value.phase.Terminal() || journal.value.phase.Prepared? ==> !unproven)
    }

    /** The in-memory document belongs to the journaled transaction. */
    ghost predicate InStep()
      reads this
    {
      && journal.Some?
      && Same(memory, journal.value)
      && (memory.phase.Prepared? ==> journal == Some(memory))
      && (memory.phase.Completed? ==> release == Some(memory.releaseAfter))
    }

    /** The transaction of `d` is journaled, and everything is still explained by it. */
    ghost predicate Running(d: Document)
      reads this
    {
      Inv() && journal.Some? && Same(journal.value, d) && Same(memory, d)
    }

    /** The journal commits to neither outcome, so every effect is allowed. */
    ghost predicate Open()
      reads this
    {
      journal == Some(memory) && !memory.phase.Terminal() && !memory.phase.Prepared?
    }

    /** Nothing fails in the current invocation. */
    predicate Calm()
      reads this
    {
      !disturbed && doom.None?
    }

    /** A step of `install` meets its hazard. */
    method Risk(hazard: Hazard) returns (o: Outcome)
      ensures !disturbed ==> o == if doom == Some(Fails(hazard)) then Raised else Done
    {
      if !disturbed && doom == Some(Fails(hazard)) {
        return Raised;
      }
      o := Observe(disturbed);
    }

    /** The step raised: its durable intent is the last record. */
    ghost predicate FailedAt(hazard: Hazard, phase: Phase, o: Outcome)
      reads this
    {
      doom == Some(Fails(hazard)) ==> o.Raised? && memory.phase == phase && journal == Some(memory)
    }

    ghost predicate Avoids(hazards: set<Hazard>)
      reads this
    {
      !disturbed && (doom.Some? && doom.value.Fails? ==> doom.value.hazard !in hazards)
    }

    // ---- Effects ----

    /** `checkpoint`: memory first, then an atomic replacement of the journal file. An outcome is
        recorded only once the service that was started is seen running well. */
    method Checkpoint(phase: Phase) returns (o: Outcome)
      requires phase.Terminal() ==> !unproven
      modifies this`journal, this`memory
      ensures memory == old(memory).(phase := phase)
      ensures journal == Some(memory) || journal == old(journal)
      ensures o.Done? ==> journal == Some(memory)
      ensures !disturbed ==> o.Done?
    {
      memory := memory.(phase := phase);
      var fate := Draw(disturbed);
      if !fate.Before() {
        journal := Some(memory);
      }
      o := fate.Ends();
    }

    /** `durable_rename`. Apps move only under a durable intent, an unloaded service and the profile
        lock. */
    method DurableRename(source: Slot, destination: Slot) returns (o: Outcome)
      requires journal.Some? && RenameIntent(journal.value.phase, source, destination) && !loaded && held
      modifies this`layout
      ensures layout == old(layout)
              || (old(layout).At(destination).None?
                  && layout == old(layout).Put(destination, old(layout).At(source)).Put(source, None))
      ensures o.Done? ==> old(layout).At(source).Some? && layout.At(source).None?
      ensures !disturbed && old(layout).At(source).Some? && old(layout).At(destination).None? ==> o.Done?
    {
      if layout.At(destination).Some? {
        return Raised;
      }
      if layout.At(source).None? {
        return Raised;
      }
      var fate := Draw(disturbed);
      if !fate.Before() {
        layout := layout.Put(destination, layout.At(source)).Put(source, None);
      }
      o := fate.Ends();
    }

    /** `launchctl bootout`, under an intent whose outcome stays uncertain until the next one. */
    method Bootout() returns (o: Outcome)
      requires journal.Some? && (journal.value.phase.StopRequested? || journal.value.phase.RollbackStopRequested?)
      modifies this`loaded, this`unproven
      ensures loaded ==> old(loaded)
      ensures o.Done? ==> !loaded
      ensures !disturbed ==> o.Done?
    {
      var fate := Draw(disturbed);
      if !fate.Before() {
        loaded, unproven := false, false;
      }
      o := fate.Ends();
    }

    /** `launchctl bootstrap`. The service takes the profile lock itself. */
    method Bootstrap() returns (o: Outcome)
      requires !held
      requires journal.Some? && (journal.value.phase.StartRequested? || journal.value.phase.RollbackStartRequested?)
      modifies this`loaded, this`unproven
      ensures old(loaded) ==> loaded
      ensures o.Done? ==> loaded
      ensures !disturbed ==> o.Done?
    {
      var fate := Draw(disturbed);
      if !fate.Before() {
        loaded, unproven := true, true;
      }
      o := fate.Ends();
    }

    /** `wait_running` and the identity of the running image: the service is seen running well. */
    method SeeRunning() returns (o: Outcome)
      requires loaded
      modifies this`unproven
      ensures o.Done? ==> !unproven
      ensures unproven ==> old(unproven)
      ensures !disturbed ==> o.Done?
    {
      o := Observe(disturbed);
      if o.Done? {
        unproven := false;
      }
    }

    /** `atomic_plist`. */
    method AtomicPlist(bytes: nat, expected: nat) returns (o: Outcome)
      requires journal.Some? && (journal.value.phase.LifecycleWriteRequested? || journal.value.phase.RollbackLifecycleRequested?)
      requires !loaded && held
      modifies this`plist
      ensures plist == old(plist) || (plist == bytes && old(plist) == expected)
      ensures o.Done? ==> plist == bytes
      ensures !disturbed && old(plist) == expected ==> o.Done?
    {
      if plist != expected {
        return Raised;
      }
      var fate := Draw(disturbed);
      if !fate.Before() {
        plist := bytes;
      }
      o := fate.Ends();
    }

    /** Creating or unlinking the role marker. */
    method SetMarker(present: bool) returns (o: Outcome)
      requires journal.Some? && (journal.value.phase.LifecycleWriteRequested? || journal.value.phase.RollbackLifecycleRequested?)
      requires !loaded && held
      modifies this`marker
      ensures marker == old(marker) || marker == present
      ensures o.Done? ==> marker == present
      ensures !disturbed ==> o.Done?
    {
      var fate := Draw(disturbed);
      if !fate.Before() {
        marker := present;
      }
      o := fate.Ends();
    }

    /** `replace_state` of the installed-release file. */
    method ReplaceState(state: Option<nat>, expected: Option<nat>) returns (o: Outcome)
      requires journal.Some? && (journal.value.phase.IdentityWriteRequested? || journal.value.phase.RollbackIdentityRequested?)
      requires !loaded && held
      modifies this`release
      ensures release == old(release) || (release == state && old(release) == expected)
      ensures o.Done? ==> release == state
      ensures !disturbed && old(release) == expected ==> o.Done?
    {
      if release != expected {
        return Raised;
      }
      var fate := Draw(disturbed);
      if !fate.Before() {
        release := state;
      }
      o := fate.Ends();
    }

    /** `clean_staging`: a recursive removal, which an interruption leaves half done. */
    method CleanStaging() returns (o: Outcome)
      modifies this`layout
      ensures layout == old(layout).(staging := layout.staging)
      ensures layout.staging == old(layout).staging || layout.staging.None? || layout.staging == Some(Torn)
      ensures old(layout).staging.None? ==> layout.staging.None?
      ensures o.Done? ==> layout.staging.None?
      ensures !disturbed && doom != Some(InsideRemoval) ==> o.Done?
      ensures !disturbed && doom == Some(InsideRemoval) && old(layout).staging.Some? ==>
                o.Died? && layout == old(layout).(staging := Some(Torn))
    {
      var fate := Draw(disturbed);
      if !disturbed && doom == Some(InsideRemoval) && layout.staging.Some? {
        layout := layout.(staging := Some(Torn));
        return Died;
      }
      if fate.Fine? {
        layout := layout.(staging := None);
      } else if !fate.Before() && layout.staging.Some? {
        var rest: Option<Tree> := *;
        if rest == None || rest == Some(Torn) {
          layout := layout.(staging := rest);
        }
      }
      o := fate.Ends();
    }

    /** `idle_profile`: a loaded service owns the profile lock. */
    method TakeIdleProfile() returns (o: Outcome)
      modifies this`held
      ensures o.Done? ==> !loaded && held
      ensures !o.Done? ==> held == old(held)
      ensures !disturbed && !loaded ==> o.Done?
    {
      if loaded {
        return Raised;
      }
      o := Observe(disturbed);
      if o.Done? {
        held := true;
      }
    }

    predicate UndoFails(undo: Undo)
      reads this
    {
      !disturbed && doom == Some(RecoveryFails(undo))
    }

    /** A step of a rollback meets its hazard. */
    method RiskUndo(undo: Undo) returns (o: Outcome)
      ensures !disturbed ==> o == if UndoFails(undo) then Raised else Done
    {
      if UndoFails(undo) {
        return Raised;
      }
      o := Observe(disturbed);
    }

    // ---- Rollback ----

    /** The read-only first half of `rollback_locked`, refusals in the source's order. Whatever the
        disk looks like, reachable or tampered with, it passes exactly what it should. */
    method Diagnose() returns (o: Outcome)
      ensures o.Done? ==> Diagnosable(memory, layout, release)
      ensures !disturbed ==> o == if Diagnosable(memory, layout, release) then Done else Raised
    {
      // validate_release_journal
      if release != memory.releaseBefore && release != Some(memory.releaseAfter) {
        return Raised;
      }
      if memory.phase.Completed? && release != Some(memory.releaseAfter) {
        return Raised;
      }
      if memory.phase.Uncertain() || memory.uncertain {
        return Raised;
      }
      :- Observe(disturbed);
      // Verifying a half-deleted app fails.
      if layout.target == Some(Torn) || layout.backup == Some(Torn) || layout.staging == Some(Torn) {
        return Raised;
      }
      var old_, new_ := Some(Whole(memory.previous)), Some(Whole(memory.candidate));
      if memory.phase.Prepared? && layout != Layout(old_, None, new_) {
        return Raised;
      }
      if (layout.backup.Some? && layout.backup != old_) || (layout.staging.Some? && layout.staging != new_) {
        return Raised;
      }
      if layout.target.Some? && layout.target != old_ && layout.target != new_ {
        return Raised;
      }
      if layout.target == old_ {
        if layout.backup.Some? {
          return Raised;
        }
      } else if layout.backup != old_ {
        return Raised;
      }
      if layout.target == new_ && layout.staging.Some? {
        return Raised;
      }
      return Done;
    }

    /** Stops a loaded service under a durable intent. */
    method StopForRollback() returns (o: Outcome)
      requires Running(memory) && !memory.phase.Prepared?
      requires memory.phase.Terminal() ==> memory.phase.Completed?
      modifies this`journal, this`memory, this`loaded, this`unproven
      ensures Running(old(memory)) && memory.uncertain == old(memory).uncertain
      ensures !memory.phase.Prepared? && (memory.phase.Terminal() ==> memory == old(memory))
      ensures o.Done? ==> !loaded
      ensures !disturbed ==> o == if UndoFails(Unloading) && old(loaded) then Raised else Done
      ensures !old(memory).phase.Uncertain() ==> (o.Done? ==> !memory.phase.Uncertain()) && (!disturbed ==> (memory.phase.Uncertain() <==> o.Raised?))
    {
      o := Done;
      :- Observe(disturbed);
      if loaded {
        :- Checkpoint(RollbackStopRequested);
        :- RiskUndo(Unloading);
        :- Bootout();
        :- Checkpoint(ServiceStopped);
      }
      return Done;
    }

    /** `restore_lifecycle` and `restore_release_identity`, each under its intent. */
    method RestoreTuple() returns (o: Outcome)
      requires Running(memory) && !memory.phase.Prepared? && !loaded && held && !memory.phase.Uncertain()
      modifies this`journal, this`memory, this`plist, this`marker, this`release
      ensures Running(old(memory)) && memory.uncertain == old(memory).uncertain && !memory.phase.Prepared?
      ensures !memory.phase.Uncertain()
      ensures o.Done? ==> Open() && BeforeTuple(memory, plist, marker, release)
      ensures !disturbed ==>
                o == if UndoFails(RestoringIdentity) || (UndoFails(RestoringAgent) && memory.lifecycle.Some?) then Raised else Done
    {
      hide Consistent;
      o := Done;
      if memory.lifecycle.Some? {
        :- RestoreAgent();
      }
      o := RestoreIdentity();
    }

    /** `restore_lifecycle`. */
    method RestoreAgent() returns (o: Outcome)
      requires Running(memory) && !memory.phase.Prepared? && !loaded && held && memory.lifecycle.Some? && !memory.phase.Uncertain()
      modifies this`journal, this`memory, this`plist, this`marker
      ensures Running(old(memory)) && memory.uncertain == old(memory).uncertain && !memory.phase.Prepared?
      ensures !memory.phase.Uncertain()
      ensures o.Done? ==> plist == memory.lifecycle.value.before && marker == memory.lifecycle.value.markerBefore
      ensures !disturbed ==> o == if UndoFails(RestoringAgent) then Raised else Done
    {
      o := Done;
      :- Checkpoint(RollbackLifecycleRequested);
      :- RiskUndo(RestoringAgent);
      var value := memory.lifecycle.value;
      if plist != value.before && plist != value.after {
        return Raised;
      }
      if plist != value.before {
        :- AtomicPlist(value.before, plist);
      }
      if !value.markerBefore && marker {
        :- SetMarker(false);
      }
    }

    /** `restore_release_identity`. */
    method RestoreIdentity() returns (o: Outcome)
      requires Running(memory) && !memory.phase.Prepared? && !loaded && held && !memory.phase.Uncertain()
      modifies this`journal, this`memory, this`release
      ensures Running(old(memory)) && memory.uncertain == old(memory).uncertain && !memory.phase.Prepared?
      ensures !memory.phase.Uncertain()
      ensures o.Done? ==> Open() && release == memory.releaseBefore
      ensures !disturbed ==> o == if UndoFails(RestoringIdentity) then Raised else Done
    {
      o := Done;
      :- Checkpoint(RollbackIdentityRequested);
      :- RiskUndo(RestoringIdentity);
      if release != memory.releaseBefore && release != Some(memory.releaseAfter) {
        return Raised;
      }
      if release != memory.releaseBefore {
        :- ReplaceState(memory.releaseBefore, release);
      }
    }

    /** Puts an installed candidate back into staging. */
    method RestoreCandidate() returns (o: Outcome)
      requires Running(memory) && Open() && !loaded && held && BeforeTuple(memory, plist, marker, release)
      requires !memory.phase.Uncertain() && layout.staging != Some(Torn)
      modifies this`journal, this`memory, this`layout
      ensures Running(old(memory)) && memory.uncertain == old(memory).uncertain && !memory.phase.Prepared?
      ensures o.Done? ==> Open() && !Swapped(memory, layout)
      ensures o.Done? && old(layout).target == Some(Whole(memory.candidate)) ==> layout.target.None? && memory.phase.OldMoved?
      ensures !memory.phase.Uncertain() && layout.staging != Some(Torn)
      ensures old(layout).target != Some(Whole(memory.candidate)) ==> layout == old(layout)
      ensures !disturbed ==>
                o == if UndoFails(ReturningCandidate) && old(layout).target == Some(Whole(memory.candidate)) then Raised else Done
    {
      if layout.target == Some(Whole(memory.candidate)) {
        :- Checkpoint(RollbackCandidateMoveRequested);
        :- RiskUndo(ReturningCandidate);
        :- DurableRename(Target, Staging);
        :- Checkpoint(OldMoved);
      }
      return Done;
    }

    /** Puts the previous app back at the target. */
    method RestorePrevious() returns (o: Outcome)
      requires Running(memory) && Open() && !loaded && held && !Swapped(memory, layout)
      requires !memory.phase.Uncertain() && layout.staging != Some(Torn)
      modifies this`journal, this`memory, this`layout
      ensures Running(old(memory)) && memory.uncertain == old(memory).uncertain && !memory.phase.Prepared?
      ensures o.Done? ==> Open() && AtRest(memory, layout) && (old(layout).target.None? ==> memory.phase.ServiceStopped?)
      ensures !memory.phase.Uncertain() && layout.staging != Some(Torn)
      ensures !disturbed ==>
                o == if UndoFails(VerifyingPrevious) || (UndoFails(ReturningPrevious) && old(layout).target.None?) then Raised else Done
    {
      if layout.target.None? {
        :- Checkpoint(RollbackOldRestoreRequested);
        :- RiskUndo(ReturningPrevious);
        :- DurableRename(Backup, Target);
        :- Checkpoint(ServiceStopped);
      }
      // The restored app and its release contract are verified before the lock is dropped.
      if layout.target != Some(Whole(memory.previous)) {
        return Raised;
      }
      o := RiskUndo(VerifyingPrevious);
    }

    /** Restarts the previous service and waits for it. */
    method RestartForRollback() returns (o: Outcome)
      requires Running(memory) && Open() && !held && !memory.phase.Uncertain()
      modifies this`journal, this`memory, this`loaded, this`unproven
      ensures Running(old(memory)) && memory.uncertain == old(memory).uncertain && !memory.phase.Prepared?
      ensures o.Done? ==> Open() && loaded && !unproven
      ensures !disturbed ==> o == if (UndoFails(Reloading) && !old(loaded)) || UndoFails(Watching) then Raised else Done
      ensures !disturbed ==> (memory.phase.Uncertain() <==> UndoFails(Reloading) && !old(loaded))
    {
      o := Done;
      :- Observe(disturbed);
      if !loaded {
        :- Reload();
      }
      :- RiskUndo(Watching);
      o := SeeRunning();
    }

    /** Loads the previous service again. */
    method Reload() returns (o: Outcome)
      requires Running(memory) && Open() && !held
      modifies this`journal, this`memory, this`loaded, this`unproven
      ensures Running(old(memory)) && memory.uncertain == old(memory).uncertain && !memory.phase.Prepared?
      ensures o.Done? ==> Open() && loaded && !memory.phase.Uncertain()
      ensures !disturbed ==> o == (if UndoFails(Reloading) then Raised else Done) && (memory.phase.Uncertain() <==> UndoFails(Reloading))
    {
      o := Done;
      :- Checkpoint(RollbackStartRequested);
      :- RiskUndo(Reloading);
      :- Bootstrap();
      o := Checkpoint(Started);
    }

    /** `rollback_locked`. Undisturbed, it restores everything or refuses before touching
        anything, and the condition says which. */
    method RollbackLocked() returns (o: Outcome)
      requires Inv() && InStep() && !memory.phase.RolledBack? && !held
      modifies this`journal, this`memory, this`layout, this`plist, this`marker, this`release, this`loaded, this`held, this`unproven
      ensures Running(old(memory)) && memory.uncertain == old(memory).uncertain
      ensures o.Done? ==> journal == Some(memory) && memory.phase.RolledBack?
      ensures !(Recoverable(old(memory), old(layout)) && !StagingAlreadyCleaned(old(memory), old(layout))) ==>
                && !o.Done? && (!disturbed ==> o.Raised?)
                && memory == old(memory) && journal == old(journal) && layout == old(layout)
      ensures Recoverable(old(memory), old(layout)) && !StagingAlreadyCleaned(old(memory), old(layout)) && !disturbed ==>
                Ended(o, old(memory), old(layout), old(loaded))
      ensures !disturbed && doom == Some(InsideRemoval) && old(memory).phase.Prepared? && Recoverable(old(memory), old(layout))
              && !StagingAlreadyCleaned(old(memory), old(layout)) ==>
                o.Died? && journal == old(journal) && layout == old(layout).(staging := Some(Torn))
    {
      assert memory.phase.Prepared? ==> AtRest(memory, layout) && loaded && journal == Some(memory) && !unproven;
      Diagnosis();
      hide Consistent, Diagnosable;
      o := Done;
      :- Diagnose();
      if !memory.phase.Prepared? {
        :- UndoAll();
      } else {
        // Nothing but the staging copy exists yet; the service was never touched.
        :- Observe(disturbed);
      }
      o := CloseRollback();
    }

    lemma Diagnosis()
      requires Inv() && InStep()
      ensures Diagnosable(memory, layout, release) <==> Recoverable(memory, layout) && !StagingAlreadyCleaned(memory, layout)
    {
      var d := memory.(uncertain := journal.value.uncertain);
      DiagnosisDecides(d, layout, plist, marker, release, loaded, journal.value.phase);
      assert journal.value == d.(phase := journal.value.phase);
    }

    /** Stops the service, puts everything back and starts the service again. */
    method UndoAll() returns (o: Outcome)
      requires Running(memory) && !memory.phase.Prepared? && (memory.phase.Terminal() ==> memory.phase.Completed?) && !held
      requires !memory.phase.Uncertain() && layout.staging != Some(Torn)
      modifies this`journal, this`memory, this`layout, this`plist, this`marker, this`release, this`loaded, this`held, this`unproven
      ensures Running(old(memory)) && memory.uncertain == old(memory).uncertain && !memory.phase.Prepared?
      ensures layout.staging != Some(Torn)
      ensures o.Done? ==> Open() && AtRest(memory, layout) && loaded && !unproven
      ensures !disturbed ==>
                if doom.Some? && doom.value.RecoveryFails? && Undoes(old(memory), old(layout), old(loaded), doom.value.undo)
                then o.Raised? && (memory.phase.Uncertain() <==> doom.value.undo.Uncertain())
                else o.Done?
    {
      hide Consistent;
      o := Done;
      :- StopForRollback();
      :- RestoreFiles();
      held := false;
      o := RestartForRollback();
    }

    /** An otherwise undisturbed rollback that may proceed: the step that fails, if it has it, raises,
        and only a service command leaves its outcome unknown. */
    ghost predicate Ended(o: Outcome, d: Document, l: Layout, wasLoaded: bool)
      reads this
    {
      if doom.Some? && doom.value.RecoveryFails? && !d.phase.Prepared? && Undoes(d, l, wasLoaded, doom.value.undo) then
        o.Raised? && !memory.phase.Prepared? && (memory.phase.Uncertain() <==> doom.value.undo.Uncertain()) && layout.staging != Some(Torn)
      else if doom == Some(InsideRemoval) then true
      else o.Done?
    }

    /** Under the profile lock: the tuple, then the apps, are put back. */
    method RestoreFiles() returns (o: Outcome)
      requires Running(memory) && !memory.phase.Prepared? && !loaded && !held
      requires !memory.phase.Uncertain() && layout.staging != Some(Torn)
      modifies this`journal, this`memory, this`layout, this`plist, this`marker, this`release, this`held
      ensures Running(old(memory)) && memory.uncertain == old(memory).uncertain && !memory.phase.Prepared?
      ensures o.Done? ==> Open() && AtRest(memory, layout)
      ensures !memory.phase.Uncertain() && layout.staging != Some(Torn)
      ensures !disturbed ==>
                o == if doom.Some? && doom.value.RecoveryFails? && !doom.value.undo.Unloading? && !doom.value.undo.Reloading?
                        && !doom.value.undo.Watching? && Undoes(memory, old(layout), false, doom.value.undo)
                     then Raised else Done
    {
      assert AtRest(memory, layout) || Between(memory, layout) || Swapped(memory, layout);
      hide Consistent;
      o := Done;
      :- RiskUndo(Locking);
      :- TakeIdleProfile();
      :- RestoreTuple();
      o := RestoreApps();
    }

    /** The candidate goes back to staging, the previous app to the target. */
    method RestoreApps() returns (o: Outcome)
      requires Running(memory) && Open() && !loaded && held && BeforeTuple(memory, plist, marker, release)
      requires !memory.phase.Uncertain() && layout.staging != Some(Torn)
      requires AtRest(memory, layout) || Between(memory, layout) || Swapped(memory, layout)
      modifies this`journal, this`memory, this`layout
      ensures Running(old(memory)) && memory.uncertain == old(memory).uncertain && !memory.phase.Prepared?
      ensures !memory.phase.Uncertain() && layout.staging != Some(Torn)
      ensures o.Done? ==> Open() && AtRest(memory, layout)
      ensures !disturbed ==>
                o == if doom.Some? && doom.value.RecoveryFails?
                        && (doom.value.undo.ReturningCandidate? || doom.value.undo.ReturningPrevious? || doom.value.undo.VerifyingPrevious?)
                        && Undoes(memory, old(layout), false, doom.value.undo)
                     then Raised else Done
    {
      assert memory.previous != memory.candidate;
      hide Consistent;
      o := Done;
      :- RestoreCandidate();
      o := RestorePrevious();
    }

    /** Removes the staging copy and records the rollback. */
    method CloseRollback() returns (o: Outcome)
      requires Running(memory) && AtRest(memory, layout) && loaded && !unproven && journal == Some(memory) && !memory.phase.Terminal()
      requires layout.staging != Some(Torn)
      modifies this`journal, this`memory, this`layout
      ensures Running(old(memory)) && memory.uncertain == old(memory).uncertain
      ensures o.Done? ==> journal == Some(memory) && memory.phase.RolledBack?
      ensures !disturbed && doom != Some(InsideRemoval) ==> o.Done?
      ensures !disturbed && doom == Some(InsideRemoval) && old(layout).staging.Some? ==>
                o.Died? && journal == old(journal) && memory == old(memory) && layout == old(layout).(staging := Some(Torn))
    {
      o := Done;
      :- CleanStaging();
      :- Observe(disturbed);
      o := Checkpoint(RolledBack);
    }

    /** `recovery_failure`: an unknown service command leaves a permanent mark. */
    method RecoveryFailure() returns (o: Outcome)
      requires Inv() && journal.Some? && Same(memory, journal.value)
      modifies this`journal, this`memory
      ensures Running(old(memory))
      ensures memory.uncertain == (old(memory).uncertain || old(memory).phase.Uncertain())
      ensures memory.phase.RecoveryRequired?
      ensures journal == Some(memory) || journal == old(journal)
      ensures !disturbed ==> o.Done? && journal == Some(memory)
    {
      if memory.phase.Uncertain() {
        memory := memory.(uncertain := true);
      }
      o := Checkpoint(RecoveryRequired);
    }

    /** `recover_interrupted`. The last three clauses decide every undisturbed run: one run
        restores, one run only repairs the journal phase, or recovery refuses for good. */
    method RecoverInterrupted() returns (o: Outcome)
      requires Inv()
      modifies this`journal, this`memory, this`layout, this`plist, this`marker, this`release, this`loaded, this`held, this`unproven
      ensures Inv()
      ensures old(journal).None? ==> journal.None? && layout == old(layout)
      ensures old(journal).Some? ==> journal.Some? && Same(journal.value, old(journal).value)
      ensures old(journal).Some? && old(journal).value.phase.Terminal() ==>
                journal == old(journal) && layout == old(layout) && release == old(release) && plist == old(plist)
      ensures old(journal).Some? && !old(journal).value.phase.Terminal() && !Recoverable(old(journal).value, old(layout)) ==>
                layout == old(layout) && !journal.value.phase.Terminal()
      ensures !disturbed && doom == Some(InsideRemoval) && old(journal).Some? && old(journal).value.phase.Prepared?
              && old(layout).staging.Some? && Recoverable(old(journal).value, old(layout)) ==>
                o.Died? && journal == old(journal) && layout == old(layout).(staging := Some(Torn))
      ensures !disturbed && (old(journal).None? || old(journal).value.phase.Terminal()) ==> o.Done?
      ensures !disturbed && doom.Some? && doom.value.RecoveryFails? && old(journal).Some? && !old(journal).value.phase.Terminal()
              && !old(journal).value.phase.Prepared? && Recoverable(old(journal).value, old(layout))
              && Undoes(old(journal).value, old(layout), old(loaded), doom.value.undo) ==>
                && o.Raised? && journal.value.phase.RecoveryRequired?
                && (Recoverable(journal.value, layout) <==> !doom.value.undo.Uncertain())
      ensures Calm() && old(journal).Some? && !old(journal).value.phase.Terminal() ==>
                (o.Done? <==> Recoverable(old(journal).value, old(layout)) && !StagingAlreadyCleaned(old(journal).value, old(layout)))
      ensures Calm() && old(journal).Some? && !old(journal).value.phase.Terminal() ==>
                var d, l := old(journal).value, old(layout);
                if !Recoverable(d, l) then
                  && layout == l && journal.value.phase.RecoveryRequired? && !Recoverable(journal.value, layout)
                else if StagingAlreadyCleaned(d, l) then
                  && layout == l && journal.value == d.(phase := RecoveryRequired)
                else
                  journal.value == d.(phase := RolledBack)
    {
      // A new process holds no lock.
      held := false;
      if journal.None? {
        return Done;
      }
      memory := journal.value;
      if memory.phase.Terminal() {
        TerminalHere();
        o := ConfirmTerminal();
        return;
      }
      o := RollbackLocked();
      if o.Raised? {
        var failure := RecoveryFailure();
        o := if failure.Died? then Died else Raised;
      }
    }

    /** A finished journal is compared with the app at the target, whatever that is. */
    method ConfirmTerminal() returns (o: Outcome)
      requires memory.phase.Terminal()
      ensures !disturbed ==>
                (o.Done? <==> layout.target == Some(Whole(if memory.phase.Completed? then memory.candidate else memory.previous)))
    {
      var installed := if memory.phase.Completed? then memory.candidate else memory.previous;
      if layout.target != Some(Whole(installed)) {
        return Raised;
      }
      o := Observe(disturbed);
    }

    lemma TerminalHere()
      requires Inv() && journal.Some? && journal.value.phase.Terminal()
      ensures var d := journal.value; layout.target == Some(Whole(if d.phase.Completed? then d.candidate else d.previous))
    {
    }

    // ---- Forward ----

    /** Still the same transaction, and under way. */
    ghost predicate Forwarding(d: Document)
      reads this
    {
      Running(d) && !memory.phase.Prepared? && !memory.phase.Terminal() && memory.uncertain == d.uncertain
    }

    /** The hazards a transaction meets. */
    ghost predicate Meets(d: Document, hazard: Hazard) {
      hazard.WritingAgent? ==> d.lifecycle.Some?
    }

    /** Stops the old service under a durable intent and takes the profile lock. */
    method StopOld() returns (o: Outcome)
      requires Running(memory) && journal == Some(memory) && memory.phase.Prepared?
      modifies this`journal, this`memory, this`loaded, this`held, this`unproven
      ensures Forwarding(old(memory))
      ensures o.Done? ==> Open() && !loaded && held
      ensures !disturbed ==> Decided(0, old(memory), o)
    {
      o := Done;
      :- Checkpoint(StopRequested);
      :- Risk(Stopping);
      if loaded {
        :- Bootout();
      }
      :- Checkpoint(ServiceStopped);
      :- Risk(Idling);
      o := TakeIdleProfile();
    }

    /** Moves the old app aside. */
    method MoveOld() returns (o: Outcome)
      requires Running(memory) && Open() && !loaded && held && AtRest(memory, layout)
      requires layout.staging == Some(Whole(memory.candidate))
      modifies this`journal, this`memory, this`layout
      ensures Forwarding(old(memory)) && layout.staging != Some(Torn)
      ensures o.Done? ==> Open() && Between(memory, layout) && memory.phase.OldMoved?
      ensures Avoids({MovingOld}) ==> o.Done?
      ensures !disturbed ==> FailedAt(MovingOld, MoveOldRequested, o)
    {
      o := Done;
      :- Checkpoint(MoveOldRequested);
      :- Risk(MovingOld);
      :- DurableRename(Target, Backup);
      o := Checkpoint(OldMoved);
    }

    /** Moves the candidate in. */
    method MoveNew() returns (o: Outcome)
      requires Running(memory) && Open() && !loaded && held && Between(memory, layout)
      modifies this`journal, this`memory, this`layout
      ensures Forwarding(old(memory)) && layout.staging != Some(Torn)
      ensures o.Done? ==> Open() && Swapped(memory, layout) && memory.phase.NewInstalled?
      ensures Avoids({MovingNew}) ==> o.Done?
      ensures !disturbed ==> FailedAt(MovingNew, MoveNewRequested, o)
    {
      o := Done;
      :- Checkpoint(MoveNewRequested);
      :- Risk(MovingNew);
      :- DurableRename(Staging, Target);
      o := Checkpoint(NewInstalled);
    }

    /** Verifies the candidate where it now is. */
    method VerifyNew() returns (o: Outcome)
      requires Running(memory) && Open() && Swapped(memory, layout)
      modifies this`journal, this`memory
      ensures Forwarding(old(memory))
      ensures o.Done? ==> Open() && Swapped(memory, layout) && memory.phase.NewVerified?
      ensures Avoids({Verifying}) ==> o.Done?
      ensures !disturbed ==> FailedAt(Verifying, VerifyNewRequested, o)
    {
      o := Done;
      :- Checkpoint(VerifyNewRequested);
      if layout.target != Some(Whole(memory.candidate)) {
        return Raised;
      }
      :- Risk(Verifying);
      o := Checkpoint(NewVerified);
    }

    /** Writes the launch agent, marker and release state of the candidate. */
    method WriteTuple() returns (o: Outcome)
      requires Running(memory) && Open() && Swapped(memory, layout) && !loaded && held
      requires BeforeTuple(memory, plist, marker, release)
      modifies this`journal, this`memory, this`plist, this`marker, this`release
      ensures Forwarding(old(memory))
      ensures o.Done? ==> Open() && AfterTuple(memory, plist, marker, release)
      ensures !disturbed ==> Decided(2, old(memory), o)
    {
      hide Consistent;
      o := Done;
      if memory.lifecycle.Some? {
        :- WriteAgent();
      }
      o := WriteIdentity();
    }

    /** Writes the release state. */
    method WriteIdentity() returns (o: Outcome)
      requires Running(memory) && Open() && Swapped(memory, layout) && !loaded && held && release == memory.releaseBefore
      modifies this`journal, this`memory, this`release
      ensures Forwarding(old(memory))
      ensures o.Done? ==> Open() && release == Some(memory.releaseAfter) && memory.phase.IdentityWritten?
      ensures Avoids({WritingIdentity}) ==> o.Done?
      ensures !disturbed ==> FailedAt(WritingIdentity, IdentityWriteRequested, o)
    {
      o := Done;
      :- Checkpoint(IdentityWriteRequested);
      :- Risk(WritingIdentity);
      :- ReplaceState(Some(memory.releaseAfter), memory.releaseBefore);
      o := Checkpoint(IdentityWritten);
    }

    /** Writes the launch agent and the marker. */
    method WriteAgent() returns (o: Outcome)
      requires Running(memory) && Open() && Swapped(memory, layout) && !loaded && held && memory.lifecycle.Some?
      requires BeforeTuple(memory, plist, marker, release)
      modifies this`journal, this`memory, this`plist, this`marker
      ensures Forwarding(old(memory))
      ensures o.Done? ==> Open() && plist == memory.lifecycle.value.after && marker && memory.phase.LifecycleWritten?
      ensures Avoids({WritingAgent}) ==> o.Done?
      ensures !disturbed ==> FailedAt(WritingAgent, LifecycleWriteRequested, o)
    {
      o := Done;
      :- Checkpoint(LifecycleWriteRequested);
      :- Risk(WritingAgent);
      :- AtomicPlist(memory.lifecycle.value.after, memory.lifecycle.value.before);
      :- SetMarker(true);
      o := Checkpoint(LifecycleWritten);
    }

    /** Starts the new service and, once it is healthy, commits. */
    method StartNew() returns (o: Outcome)
      requires Running(memory) && Open() && !held && Swapped(memory, layout) && AfterTuple(memory, plist, marker, release)
      modifies this`journal, this`memory, this`loaded, this`unproven
      ensures Running(old(memory)) && InStep() && !memory.phase.Prepared? && !memory.phase.RolledBack?
      ensures memory.uncertain == old(memory).uncertain
      ensures o.Done? ==> journal == Some(memory) && memory.phase.Completed?
      ensures !disturbed ==> Decided(3, old(memory), o)
    {
      hide Consistent;
      o := Done;
      :- Launch();
      o := Confirm();
    }

    /** Loads the new service. */
    method Launch() returns (o: Outcome)
      requires Running(memory) && Open() && !held && Swapped(memory, layout) && AfterTuple(memory, plist, marker, release)
      modifies this`journal, this`memory, this`loaded, this`unproven
      ensures Forwarding(old(memory))
      ensures o.Done? ==> Open() && loaded && memory.phase.Started?
      ensures Avoids({Starting}) ==> o.Done?
      ensures !disturbed ==> FailedAt(Starting, StartRequested, o)
    {
      o := Done;
      :- Checkpoint(StartRequested);
      :- Risk(Starting);
      :- Bootstrap();
      o := Checkpoint(Started);
    }

    /** Commits once the service is seen healthy. */
    method Confirm() returns (o: Outcome)
      requires Running(memory) && Open() && loaded && Swapped(memory, layout) && AfterTuple(memory, plist, marker, release)
      modifies this`journal, this`memory, this`unproven
      ensures Running(old(memory)) && InStep() && !memory.phase.Prepared? && !memory.phase.RolledBack?
      ensures memory.uncertain == old(memory).uncertain
      ensures o.Done? ==> journal == Some(memory) && memory.phase.Completed?
      ensures Avoids({Checking}) ==> o.Done?
      ensures !disturbed ==> FailedAt(Checking, HealthRequested, o)
    {
      o := Done;
      :- Checkpoint(HealthRequested);
      :- Risk(Checking);
      :- SeeRunning();
      o := Checkpoint(Completed);
    }

    /** The body of the `try` in `install`. */
    method Forward() returns (o: Outcome)
      requires Running(memory) && journal == Some(memory) && memory.phase.Prepared?
      requires layout.staging == Some(Whole(memory.candidate))
      modifies this`journal, this`memory, this`layout, this`plist, this`marker, this`release, this`loaded, this`held, this`unproven
      ensures Running(old(memory)) && InStep() && !memory.phase.Prepared? && !memory.phase.RolledBack?
      ensures memory.uncertain == old(memory).uncertain && layout.staging != Some(Torn)
      ensures o.Done? ==> journal == Some(memory) && memory.phase.Completed?
      ensures !disturbed && (doom.Some? && doom.value.Fails? ==> !Meets(memory, doom.value.hazard)) ==> o.Done?
      ensures !disturbed && doom.Some? && doom.value.Fails? && Meets(memory, doom.value.hazard) ==>
                o.Raised? && (memory.phase.Uncertain() <==> doom.value.hazard.Uncertain())
    {
      assert AtRest(memory, layout) && BeforeTuple(memory, plist, marker, release);
      hide Consistent;
      assert doom.Some? && doom.value.Fails? ==> doom.value.hazard.Part() <= 3;
      o := Done;
      :- StopOld();
      :- SwapApps();
      :- WriteTuple();
      held := false;
      o := StartNew();
    }

    /** One part of `install`, otherwise undisturbed: it succeeds unless one of the steps it has
        fails, which raises under its own intent. */
    ghost predicate Decided(part: nat, d: Document, o: Outcome)
      reads this
    {
      if doom.Some? && doom.value.Fails? && doom.value.hazard.Part() == part && Meets(d, doom.value.hazard)
      then o.Raised? && (memory.phase.Uncertain() <==> doom.value.hazard.Uncertain())
      else o.Done?
    }

    /** The part of `install` that exchanges the apps. */
    method SwapApps() returns (o: Outcome)
      requires Running(memory) && Open() && !loaded && held && AtRest(memory, layout)
      requires layout.staging == Some(Whole(memory.candidate))
      modifies this`journal, this`memory, this`layout
      ensures Forwarding(old(memory)) && layout.staging != Some(Torn)
      ensures o.Done? ==> Open() && Swapped(memory, layout)
      ensures !disturbed ==> Decided(1, old(memory), o)
    {
      hide Consistent, Between, Swapped;
      o := Done;
      :- MoveOld();
      :- MoveNew();
      o := VerifyNew();
    }

    /** The first durable write: the journal of the new transaction, whose staging copy is
        already complete and whose backup directory is new. */
    method Begin(document: Document) returns (o: Outcome)
      requires Inv() && document.phase.Prepared? && !document.uncertain && (journal.Some? ==> journal.value.phase.Terminal())
      requires layout.target == Some(Whole(document.previous)) && loaded
      requires document.previous.build < document.candidate.build
      requires BeforeTuple(document, plist, marker, release)
      modifies this`journal, this`memory, this`layout
      ensures Inv() && memory == document
      ensures (journal == old(journal) && layout == old(layout))
              || (journal == Some(document)
                  && layout == Layout(old(layout).target, None, Some(Whole(document.candidate))))
      ensures o.Done? || (!disturbed && doom == Some(AfterFirstWrite)) ==>
                && journal == Some(document) && layout == Layout(old(layout).target, None, Some(Whole(document.candidate)))
      ensures !disturbed ==> o == if doom == Some(AfterFirstWrite) then Died else Done
    {
      memory := document;
      var fate := Draw(disturbed);
      if !disturbed && doom == Some(AfterFirstWrite) {
        fate := DieAfter;
      }
      if !fate.Before() {
        journal := Some(document);
        layout := Layout(layout.target, None, Some(Whole(document.candidate)));
      }
      o := fate.Ends();
    }

    /** What is looked at before the first journal write: other services, processes, the profile. */
    method Preflight() returns (o: Outcome)
      ensures !disturbed ==> o == if doom == Some(Unready) then Raised else Done
    {
      if !disturbed && doom == Some(Unready) {
        return Raised;
      }
      o := Observe(disturbed);
    }

    /** The app at the target, if it is a whole one. */
    predicate Holds(app: App)
      reads this
    {
      layout.target == Some(Whole(app))
    }

    /** What `install` asks before it touches anything: no unfinished journal, a loaded service, and
        a newer build, or exactly what is installed already. */
    predicate Installable(candidate: App, agentAfter: Option<nat>, releaseAfter: nat)
      reads this
    {
      && (journal.Some? ==> journal.value.phase.Terminal()) && loaded && layout.target.Some? && layout.target.value.Whole?
      && var previous := layout.target.value.app;
         || previous.build < candidate.build
         || (candidate == previous && (agentAfter.Some? ==> agentAfter.value == plist) && release == Some(releaseAfter))
    }

    /** `install` with --apply. `agentAfter` is the migrated launch agent, if one was asked for.
        Undisturbed it succeeds if and only if the request is installable; installing what is
        already installed changes nothing. If one step raises, everything is put back at once; if it
        is a service command, the journal is marked instead. */
    method Install(candidate: App, agentAfter: Option<nat>, releaseAfter: nat) returns (o: Outcome)
      requires Inv()
      modifies this`journal, this`memory, this`layout, this`plist, this`marker, this`release, this`loaded, this`held, this`unproven
      ensures Inv()
      ensures !old(Installable(candidate, agentAfter, releaseAfter)) || old(Holds(candidate)) ==>
                && journal == old(journal) && layout == old(layout) && plist == old(plist)
                && marker == old(marker) && release == old(release) && loaded == old(loaded)
      ensures !old(Installable(candidate, agentAfter, releaseAfter)) ==> o.Raised?
      ensures o.Done? && !old(Holds(candidate)) ==>
                && journal.Some? && journal.value.phase.Completed? && layout.target == Some(Whole(candidate))
                && release == Some(releaseAfter) && (agentAfter.Some? ==> plist == agentAfter.value && marker) && loaded
      ensures Calm() ==> (o.Done? <==> old(Installable(candidate, agentAfter, releaseAfter)))
      ensures !disturbed && doom == Some(Unready) && !old(Holds(candidate)) ==>
                && o.Raised? && journal == old(journal) && layout == old(layout) && plist == old(plist)
                && marker == old(marker) && release == old(release) && loaded == old(loaded)
      ensures !disturbed && doom.Some? && doom.value.Fails? && (doom.value.hazard.WritingAgent? ==> agentAfter.Some?)
              && old(Installable(candidate, agentAfter, releaseAfter)) && !old(Holds(candidate)) ==>
                && o.Raised? && journal.Some?
                && (if doom.value.hazard.Uncertain() then journal.value.phase.RecoveryRequired? && journal.value.uncertain
                    else
                      && journal.value.phase.RolledBack? && layout == old(layout).(backup := None, staging := None)
                      && (agentAfter.Some? ==> plist == old(plist) && marker == old(marker))
                      && release == old(release) && loaded)
      ensures !disturbed && doom == Some(AfterFirstWrite) && old(Installable(candidate, agentAfter, releaseAfter))
              && !old(Holds(candidate)) ==>
                && o.Died? && journal.Some? && journal.value.phase.Prepared? && !journal.value.uncertain
                && layout == Layout(old(layout).target, None, Some(Whole(candidate)))
    {
      if journal.Some? {
        var pending := journal.value;
        if release != pending.releaseBefore && release != Some(pending.releaseAfter) {
          return Raised;
        }
        if !pending.phase.Terminal() {
          return Raised;
        }
      }
      if layout.target.None? || layout.target.value.Torn? {
        return Raised;
      }
      var previous := layout.target.value.app;
      if candidate.build < previous.build {
        return Raised;
      }
      var sameAgent := agentAfter.None? || agentAfter.value == plist;
      if candidate.build == previous.build && !(candidate == previous && sameAgent && release == Some(releaseAfter)) {
        return Raised;
      }
      if !loaded {
        return Raised;
      }
      if candidate.build == previous.build {
        o := Observe(disturbed);
        return;
      }
      :- Preflight();
      var lifecycle := if agentAfter.Some? then Some(Lifecycle(plist, agentAfter.value, marker)) else None;
      o := Upgrade(Document(Prepared, false, previous, candidate, lifecycle, release, releaseAfter));
    }

    /** Everything is as before the transaction, and says so. */
    ghost predicate RestoredFrom(d: Document)
      reads this
    {
      && journal.Some? && journal.value.phase.RolledBack? && layout == Layout(Some(Whole(d.previous)), None, None)
      && BeforeTuple(d, plist, marker, release) && loaded
    }

    /** `install` from its first journal write on. A step that raises is rolled back at once; a
        service command that raises is of unknown outcome and leaves its permanent mark. */
    method Upgrade(document: Document) returns (o: Outcome)
      requires Inv() && document.phase.Prepared? && !document.uncertain && (journal.Some? ==> journal.value.phase.Terminal())
      requires layout.target == Some(Whole(document.previous)) && loaded
      requires document.previous.build < document.candidate.build
      requires BeforeTuple(document, plist, marker, release)
      modifies this`journal, this`memory, this`layout, this`plist, this`marker, this`release, this`loaded, this`held, this`unproven
      ensures Inv()
      ensures o.Done? ==> journal.Some? && journal.value.phase.Completed? && Same(journal.value, document)
      ensures Calm() ==> o.Done?
      ensures !disturbed && doom.Some? && doom.value.Fails? && Meets(document, doom.value.hazard) ==>
                && o.Raised? && journal.Some? && Same(journal.value, document)
                && (if doom.value.hazard.Uncertain() then journal.value.phase.RecoveryRequired? && journal.value.uncertain
                    else RestoredFrom(document))
      ensures !disturbed && doom == Some(AfterFirstWrite) ==>
                o.Died? && journal == Some(document) && layout == Layout(old(layout).target, None, Some(Whole(document.candidate)))
    {
      hide Consistent;
      o := Done;
      :- Begin(document);
      o := Forward();
      if o.Raised? {
        // Leaving the `with` block releases the profile lock.
        held := false;
        var rollback := RollbackLocked();
        if rollback.Raised? {
          rollback := RecoveryFailure();
        }
        RolledBackHere();
        o := if rollback.Died? then Died else Raised;
      } else if o.Done? {
        // Cleanup failures after `Completed` are only reported.
        var cleanup := CleanAfterCommit();
        o := if cleanup.Died? then Died else Done;
      }
    }

    lemma RolledBackHere()
      requires Inv()
      ensures journal.Some? && journal.value.phase.RolledBack? ==> RestoredFrom(journal.value)
    {
    }

    /** The last cleanup finds no staging copy left. */
    method CleanAfterCommit() returns (o: Outcome)
      requires Inv() && journal.Some? && journal.value.phase.Completed?
      modifies this`layout
      ensures Inv() && layout == old(layout) && (Calm() ==> o.Done?)
    {
      o := CleanStaging();
    }

    // ---- Whole runs ----

    /** Undisturbed recovery of an interrupted upgrade: it restores the previous app, agent,
        marker, release state and service if and only if the interruption left no service
        command of unknown outcome and no half-deleted staging copy. Two runs are enough,
        and two are needed exactly when the staging copy was already removed. */
    method RecoverUndisturbed() returns (runs: nat)
      requires Inv() && Calm()
      requires journal.Some? && !journal.value.phase.Terminal()
      modifies this`journal, this`memory, this`layout, this`plist, this`marker, this`release, this`loaded, this`held, this`unproven
      ensures Inv() && journal.Some? && Same(journal.value, old(journal).value)
      ensures journal.value.phase.RolledBack? <==> Recoverable(old(journal).value, old(layout))
      ensures journal.value.phase.RolledBack? ==>
                && layout == Layout(Some(Whole(journal.value.previous)), None, None)
                && BeforeTuple(journal.value, plist, marker, release) && loaded
      ensures !journal.value.phase.RolledBack? ==> layout == old(layout) && !Recoverable(journal.value, layout)
      ensures 1 <= runs <= 2
      ensures Recoverable(old(journal).value, old(layout)) ==>
                (runs == 2 <==> StagingAlreadyCleaned(old(journal).value, old(layout)))
    {
      var first := RecoverInterrupted();
      runs := 1;
      if !journal.value.phase.RolledBack? {
        var second := RecoverInterrupted();
        runs := 2;
      }
    }

    /** A recovery in which one step raises can be repeated: unless the step was a service command, whose
        outcome stays unknown for good, the next undisturbed recovery restores everything. */
    method RecoverAgain(undo: Undo)
      requires Inv() && journal.Some? && !journal.value.phase.Terminal() && !journal.value.phase.Prepared?
      requires Recoverable(journal.value, layout) && Undoes(journal.value, layout, loaded, undo)
      modifies this
      ensures Inv() && journal.Some? && Same(journal.value, old(journal).value)
      ensures if undo.Uncertain() then journal.value.phase.RecoveryRequired? && !Recoverable(journal.value, layout)
              else RestoredFrom(journal.value)
    {
      disturbed, doom := false, Some(RecoveryFails(undo));
      var first := RecoverInterrupted();
      doom := None;
      var second := RecoverInterrupted();
      RolledBackHere();
    }

    /** Any history of upgrades and recoveries, each failing or dying wherever it likes:
        no mixed tuple ever carries a terminal phase, and no app is lost or duplicated. */
    method AnyHistory(requests: seq<Request>)
      requires Inv()
      modifies this
      ensures Inv()
      ensures journal.Some? ==>
                var d := journal.value;
                && Conserved(d, layout)
                && (d.phase.Completed? ==> layout.target == Some(Whole(d.candidate)) && AfterTuple(d, plist, marker, release))
                && (d.phase.RolledBack? ==> layout.target == Some(Whole(d.previous)) && BeforeTuple(d, plist, marker, release))
    {
      for i := 0 to |requests|
        invariant Inv()
      {
        disturbed, doom := *, *;
        match requests[i] {
          case Upgrade(candidate, agentAfter, releaseAfter) =>
            var o := Install(candidate, agentAfter, releaseAfter);
          case Recover =>
            var o := RecoverInterrupted();
        }
      }
    }

    /** A half-deleted staging copy is for good: whatever is asked, disturbed or not, the
        transaction stays unfinished and the apps stay where they are. */
    method TornForever(requests: seq<Request>)
      requires Inv() && journal.Some? && !journal.value.phase.Terminal() && layout.staging == Some(Torn)
      modifies this
      ensures Inv() && journal.Some? && !journal.value.phase.Terminal() && layout == old(layout)
    {
      for i := 0 to |requests|
        invariant Inv() && journal.Some? && !journal.value.phase.Terminal() && layout == old(layout)
      {
        disturbed, doom := *, *;
        match requests[i] {
          case Upgrade(candidate, agentAfter, releaseAfter) =>
            var o := Install(candidate, agentAfter, releaseAfter);
          case Recover =>
            var o := RecoverInterrupted();
        }
      }
    }
  }

  datatype Request = Upgrade(candidate: App, agentAfter: Option<nat>, releaseAfter: nat) | Recover

  /** The promise that every interruption can be recovered is false. This is a run of the code: an
      upgrade dies right after its first journal write, and the recovery dies inside the recursive
      removal of the staging copy. By `TornForever` nothing leaves the state it reaches. */
  method HalfDeletedStaging(installed: App, candidate: App, plist: nat, release: Option<nat>, releaseAfter: nat, scratch: Document)
    returns (i: Installer)
    requires installed.build < candidate.build
    ensures fresh(i) && i.Inv() && i.journal.Some? && i.journal.value.phase.Prepared?
    ensures i.layout == Layout(Some(Whole(installed)), None, Some(Torn)) && !Recoverable(i.journal.value, i.layout)
  {
    i := new Installer(installed, plist, false, release, true, scratch);
    i.disturbed, i.doom := false, Some(AfterFirstWrite);
    var o := i.Install(candidate, None, releaseAfter);
    i.doom := Some(InsideRemoval);
    o := i.RecoverInterrupted();
  }
}
