/** The first-identity migration (scripts/migrate_macos_identity.py): `Migration.apply` and
    `Migration.rollback`, from the legacy product to the new one. */
module Migration {
  import opened Faults

  /** What can lie at a place. A created file whose write was interrupted is `Torn`. */
  datatype Thing =
    | LegacyApp | LegacyAgent | Candidate | NewAgent | NewState | Preferences | Profile(inode: nat) | Torn

  /** A public path and the private place rollback moves its content to or from: the backup
      folder for legacy files, the failed folder for new ones. */
  datatype Pair = Pair(path: Option<Thing>, aside: Option<Thing>) {
    /** The content stayed, or all of it changed places. */
    predicate MovedTo(after: Pair) {
      after == this || after == Pair(aside, path)
    }
  }

  /** The private copies of the legacy agent, release state, preferences and profile: `Full` once
      each was read, compared with the reviewed digest and written. */
  datatype Backup = Nothing | Partial | Full

  datatype Item = LegacyAppItem | LegacyAgentItem | AppItem | AgentItem | StateItem | PreferencesItem | ProfileItem

  datatype Disk = Disk(
    legacyApp: Pair, legacyAgent: Pair, app: Pair, agent: Pair, state: Pair, preferences: Pair, profile: Pair,
    stagedApp: Option<Thing>, stagedProfile: Option<Thing>, backup: Backup)
  {
    function Get(item: Item): Pair {
      match item
      case LegacyAppItem => legacyApp
      case LegacyAgentItem => legacyAgent
      case AppItem => app
      case AgentItem => agent
      case StateItem => state
      case PreferencesItem => preferences
      case ProfileItem => profile
    }

    function Set(item: Item, pair: Pair): Disk {
      match item
      case LegacyAppItem => this.(legacyApp := pair)
      case LegacyAgentItem => this.(legacyAgent := pair)
      case AppItem => this.(app := pair)
      case AgentItem => this.(agent := pair)
      case StateItem => this.(state := pair)
      case PreferencesItem => this.(preferences := pair)
      case ProfileItem => this.(profile := pair)
    }
  }

  datatype Phase =
    | Preparing | StopOldRequested | OldStopped | MoveOldRequested | InstallNewRequested
    | StartNewRequested | Completed | RollbackNewStopped | RollbackOldStartRequested | RolledBack
  {
    /** The phases that touch the legacy product. */
    predicate Committing() {
      StopOldRequested? || OldStopped? || MoveOldRequested? || InstallNewRequested? || StartNewRequested? || Completed?
    }
  }

  /** The journal: progress, and the bindings rollback needs to recognise its own files. */
  datatype Document = Document(phase: Phase, profileInode: Option<nat>, bound: bool)

  /** `t` lies at exactly one of the two places. */
  predicate Either(p: Pair, t: Thing) {
    p == Pair(Some(t), None) || p == Pair(None, Some(t))
  }

  /** A new public file, if there, is the transaction's own, possibly half written, and its
      place in the failed folder is free. */
  predicate Owned(p: Pair, t: Thing) {
    p.path.Some? ==> (p.path == Some(t) || p.path == Some(Torn)) && p.aside.None?
  }

  /** The verified candidate is in exactly one of its three places. */
  predicate CandidateKept(d: Disk) {
    if d.stagedApp.Some? then d.stagedApp == Some(Candidate) && d.app == Pair(None, None) else Either(d.app, Candidate)
  }

  predicate LegacyInPlace(d: Disk) {
    d.legacyApp == Pair(Some(LegacyApp), None) && d.legacyAgent == Pair(Some(LegacyAgent), None)
  }

  predicate NothingNew(d: Disk) {
    d.app.path.None? && d.agent.path.None? && d.state.path.None? && d.preferences.path.None? && d.profile.path.None?
  }

  predicate NewInstalled(d: Disk) {
    d.app.path == Some(Candidate) && d.agent.path == Some(NewAgent) && d.state.path == Some(NewState) && d.profile.path.Some?
  }

  /** No private place holds anything: no migration was begun. */
  predicate Untouched(d: Disk) {
    && d.legacyApp.aside.None? && d.legacyAgent.aside.None? && d.app.aside.None? && d.agent.aside.None?
    && d.state.aside.None? && d.preferences.aside.None? && d.profile.aside.None?
    && d.stagedApp.None? && d.stagedProfile.None? && d.backup.Nothing?
  }

  /** What the disk can look like for a journal, whatever crashed before. `sealed` says that
      the staged candidate was verified. */
  predicate Explained(doc: Document, d: Disk, sealed: bool) {
    && Either(d.legacyApp, LegacyApp) && Either(d.legacyAgent, LegacyAgent)
    && (if sealed then CandidateKept(d) else NothingNew(d) && d.app.aside.None?)
    && Owned(d.agent, NewAgent) && Owned(d.state, NewState) && Owned(d.preferences, Preferences)
    && (d.profile.path.Some? ==>
          && doc.profileInode.Some? && d.profile == Pair(Some(Profile(doc.profileInode.value)), None))
    && (d.stagedProfile.Some? ==> d.profile == Pair(None, None))
    && (d.agent.path.Some? || d.state.path.Some? ==> doc.bound)
    && (doc.phase.Committing() ==> d.backup.Full?)
    && (doc.phase.Completed? ==> NewInstalled(d))
    && (doc.phase.RolledBack? ==> LegacyInPlace(d) && NothingNew(d))
  }

  /** No two owners, and each runs only from its own installed files. */
  predicate OneOwner(d: Disk, bound: bool, oldLoaded: bool, newLoaded: bool) {
    && !(oldLoaded && newLoaded)
    && (oldLoaded ==> LegacyInPlace(d))
    && (newLoaded ==> bound && d.app.path == Some(Candidate) && d.agent.path == Some(NewAgent))
  }

  /** Nothing was lost or made between two disks: every file is at its path or its private place. */
  predicate KeepsFiles(before: Disk, after: Disk) {
    && after.stagedApp == before.stagedApp && after.stagedProfile == before.stagedProfile && after.backup == before.backup
    && before.legacyApp.MovedTo(after.legacyApp) && before.legacyAgent.MovedTo(after.legacyAgent)
    && before.app.MovedTo(after.app) && before.agent.MovedTo(after.agent) && before.state.MovedTo(after.state)
    && before.preferences.MovedTo(after.preferences) && before.profile.MovedTo(after.profile)
  }

  /** No metadata write was interrupted: what a caller can check before rolling back. */
  predicate Cleanable(d: Disk) {
    d.agent.path != Some(Torn) && d.state.path != Some(Torn)
  }

  /** The steps of `apply` that can fail: after staging, at the stop of the old service, before the
      legacy files move, before the new ones are published, after all files are written, at the
      start of the new service and at its health check. */
  datatype Hazard = Staging | Stopping | Moving | Publishing | Sealing | Starting | Checking

  /** One thing that goes wrong in an otherwise undisturbed invocation: the process dies in the
      middle of writing the new agent file, or a look at the system before the first write or one
      step of `apply` raises. */
  datatype Doom = Unready | TornAgent | Fails(hazard: Hazard)

  /** The intent that must be on disk before a file leaves its path. */
  predicate MoveIntent(phase: Phase, item: Item) {
    if item.LegacyAppItem? || item.LegacyAgentItem? then phase.MoveOldRequested? else phase.RollbackNewStopped?
  }

  class Migrator {
    /** Whether anything may fail in the current invocation, or only what `doom` says. */
    var disturbed: bool
    var doom: Option<Doom>

    /** Whether the legacy product has preferences that could be imported. */
    const preferencesExist: bool

    // Durable state. The legacy profile and preferences are never written.
    var disk: Disk
    var work: bool
    var journal: Option<Document>
    var oldLoaded: bool
    var newLoaded: bool
    var nextInode: nat

    var memory: Document
    ghost var sealed: bool

    /** The service that should run was seen running since it was last started or stopped, by the
        invocation under way. */
    ghost var confirmed: bool

    /** A machine where no migration was ever begun; anything may lie at the public paths. */
    constructor (disk: Disk, oldLoaded: bool, preferencesExist: bool, scratch: Document)
      requires Untouched(disk) && (oldLoaded ==> LegacyInPlace(disk))
      ensures Inv() && journal == None && !work && this.disk == disk && this.oldLoaded == oldLoaded && !newLoaded
    {
      this.preferencesExist := preferencesExist;
      disturbed, doom, this.disk, this.oldLoaded, newLoaded := true, None, disk, oldLoaded, false;
      work, journal, nextInode, memory, sealed, confirmed := false, None, 0, scratch, false, false;
    }

    ghost predicate Inv()
      reads this
    {
      && OneOwner(disk, journal.Some? && journal.value.bound, oldLoaded, newLoaded)
      && (journal.Some? ==> work)
      && (if journal.Some? then Explained(journal.value, disk, sealed) else Untouched(disk) && !sealed && !newLoaded)
    }

    /** The document in memory knows at least what the journal knows. */
    ghost predicate InStep()
      reads this
    {
      && Inv() && journal.Some?
      && (journal.value.bound ==> memory.bound)
      && (journal.value.profileInode.Some? ==> memory.profileInode == journal.value.profileInode)
    }

    /** Nothing fails in the current invocation. */
    predicate Calm()
      reads this
    {
      !disturbed && doom.None?
    }

    predicate Failing()
      reads this
    {
      !disturbed && doom.Some? && doom.value.Fails?
    }

    predicate DoomedTo(hazard: Hazard)
      reads this
    {
      Failing() && doom.value.hazard == hazard
    }

    predicate Tearing()
      reads this
    {
      !disturbed && doom == Some(TornAgent)
    }

    /** A step of `apply` meets its hazard. */
    method Risk(hazard: Hazard) returns (o: Outcome)
      ensures !disturbed ==> o == if DoomedTo(hazard) then Raised else Done
    {
      if DoomedTo(hazard) {
        return Raised;
      }
      o := Observe(disturbed);
    }

    // ---- Effects ----

    /** `checkpoint`. A terminal phase is written only when the disk is as it says. */
    method Checkpoint(phase: Phase) returns (o: Outcome)
      requires InStep()
      requires phase.RolledBack? ==> LegacyInPlace(disk) && NothingNew(disk)
      requires phase.Completed? ==> NewInstalled(disk)
      requires phase.Committing() ==> disk.backup.Full?
      requires phase.Completed? || phase.RolledBack? ==> confirmed
      modifies this`journal, this`memory
      ensures InStep() && memory == old(memory).(phase := phase)
      ensures journal == Some(memory) || journal == old(journal)
      ensures o.Done? ==> journal == Some(memory)
      ensures !disturbed ==> o.Done?
    {
      memory := memory.(phase := phase);
      var fate := Draw(disturbed);
      if !fate.Before() {
        journal := Some(memory);
      }
      o := fate.Ends();
    }

    /** `durable_rename` from a path to its private place. It never replaces anything. */
    method SetAside(item: Item) returns (o: Outcome)
      requires journal.Some? && MoveIntent(journal.value.phase, item)
      modifies this`disk
      ensures disk == old(disk)
              || (old(disk).Get(item).aside.None? && disk == old(disk).Set(item, Pair(None, old(disk).Get(item).path)))
      ensures o.Done? ==> old(disk).Get(item).path.Some? && disk.Get(item).path.None?
      ensures !disturbed && old(disk).Get(item).path.Some? && old(disk).Get(item).aside.None? ==> o.Done?
    {
      var p := disk.Get(item);
      if p.aside.Some? || p.path.None? {
        return Raised;
      }
      var fate := Draw(disturbed);
      if !fate.Before() {
        disk := disk.Set(item, Pair(None, p.path));
      }
      o := fate.Ends();
    }

    /** `durable_rename` from the private place back to the path. */
    method PutBack(item: Item) returns (o: Outcome)
      requires journal.Some? && journal.value.phase.RollbackNewStopped?
      modifies this`disk
      ensures disk == old(disk)
              || (old(disk).Get(item).path.None? && disk == old(disk).Set(item, Pair(old(disk).Get(item).aside, None)))
      ensures o.Done? ==> old(disk).Get(item).aside.Some? && disk.Get(item).aside.None?
      ensures !disturbed && old(disk).Get(item).aside.Some? && old(disk).Get(item).path.None? ==> o.Done?
    {
      var p := disk.Get(item);
      if p.path.Some? || p.aside.None? {
        return Raised;
      }
      var fate := Draw(disturbed);
      if !fate.Before() {
        disk := disk.Set(item, Pair(p.aside, None));
      }
      o := fate.Ends();
    }

    /** `write_private`: creates a file exclusively, but writing it is not atomic. */
    method WritePrivate(item: Item, content: Thing) returns (o: Outcome)
      requires journal.Some? && journal.value.phase.InstallNewRequested?
      modifies this`disk
      ensures disk == old(disk)
              || (old(disk).Get(item).path.None?
                  && (disk == old(disk).Set(item, old(disk).Get(item).(path := Some(content)))
                      || disk == old(disk).Set(item, old(disk).Get(item).(path := Some(Torn)))))
      ensures o.Done? ==> old(disk).Get(item).path.None? && disk.Get(item).path == Some(content)
      ensures !disturbed && !(Tearing() && item.AgentItem?) && old(disk).Get(item).path.None? ==> o.Done?
      ensures Tearing() && item.AgentItem? && old(disk).Get(item).path.None? ==>
                o.Died? && disk == old(disk).Set(item, old(disk).Get(item).(path := Some(Torn)))
    {
      var p := disk.Get(item);
      if p.path.Some? {
        return Raised;
      }
      if Tearing() && item.AgentItem? {
        disk := disk.Set(item, p.(path := Some(Torn)));
        return Died;
      }
      var fate := Draw(disturbed);
      if fate.Fine? {
        disk := disk.Set(item, p.(path := Some(content)));
      } else if !fate.Before() {
        var torn: bool := *;
        disk := disk.Set(item, p.(path := Some(if torn then Torn else content)));
      }
      o := fate.Ends();
    }

    /** `stop` followed by `assert_absent` of the legacy label. */
    method StopOld() returns (o: Outcome)
      requires journal.Some? && journal.value.phase.StopOldRequested?
      modifies this`oldLoaded
      ensures oldLoaded ==> old(oldLoaded)
      ensures o.Done? ==> !oldLoaded
      ensures !disturbed ==> o.Done?
    {
      var fate := Draw(disturbed);
      if !fate.Before() {
        oldLoaded := false;
      }
      o := fate.Ends();
    }

    /** `stop` followed by `assert_absent` of the new label. */
    method StopNew() returns (o: Outcome)
      modifies this`newLoaded
      ensures newLoaded ==> old(newLoaded)
      ensures o.Done? ==> !newLoaded
      ensures !disturbed ==> o.Done?
    {
      var fate := Draw(disturbed);
      if !fate.Before() {
        newLoaded := false;
      }
      o := fate.Ends();
    }

    /** `start`: launchd loads the legacy label, proved absent beside the new one. */
    method StartOld() returns (o: Outcome)
      requires Inv() && !newLoaded && LegacyInPlace(disk) && journal.Some? && journal.value.phase.RollbackOldStartRequested?
      modifies this`oldLoaded, this`confirmed
      ensures Inv() && !confirmed && (o.Done? ==> oldLoaded) && (!disturbed ==> o.Done?)
    {
      var fate := Draw(disturbed);
      confirmed := false;
      if !fate.Before() {
        oldLoaded := true;
      }
      o := fate.Ends();
    }

    /** `verify_owner` of the restored service, or `health` of the new one: the only service that
        should run is seen running. */
    method SeeOwner() returns (o: Outcome)
      requires oldLoaded != newLoaded
      modifies this`confirmed
      ensures o.Done? ==> confirmed
      ensures !disturbed ==> o.Done?
    {
      o := Observe(disturbed);
      if o.Done? {
        confirmed := true;
      }
    }

    /** `start` of the new label. */
    method StartNew() returns (o: Outcome)
      requires Inv() && !oldLoaded && journal.Some? && journal.value.bound && NewInstalled(disk)
      requires journal.value.phase.StartNewRequested?
      modifies this`newLoaded, this`confirmed
      ensures Inv() && !confirmed && (o.Done? ==> newLoaded) && (!disturbed ==> o.Done?)
    {
      var fate := Draw(disturbed);
      confirmed := false;
      if !fate.Before() {
        newLoaded := true;
      }
      o := fate.Ends();
    }

    // ---- Rollback ----

    /** Rollback has stopped the new service and said so in the journal. */
    ghost predicate Undoing()
      reads this
    {
      InStep() && !newLoaded && journal == Some(memory) && memory.phase.RollbackNewStopped?
    }

    /** Retires the new app, agent and release state, refusing what it does not recognise. */
    method RetireInstall() returns (o: Outcome)
      requires Undoing()
      modifies this`disk
      ensures Undoing() && KeepsFiles(old(disk), disk)
      ensures disk == old(disk).(app := disk.app, agent := disk.agent, state := disk.state)
      ensures o.Done? ==> disk.app.path.None? && disk.agent.path.None? && disk.state.path.None?
      ensures NothingNew(old(disk)) ==> disk == old(disk)
      ensures !disturbed ==> (o.Done? <==> Cleanable(old(disk))) && disk.app.path.None?
      ensures Cleanable(disk) <==> Cleanable(old(disk))
      ensures !Cleanable(old(disk)) ==> !o.Done?
    {
      if disk.app.path.Some? {
        if disk.app.path != Some(Candidate) {
          return Raised;
        }
        :- SetAside(AppItem);
      }
      if disk.agent.path.Some? {
        if !memory.bound || disk.agent.path != Some(NewAgent) {
          return Raised;
        }
        :- SetAside(AgentItem);
      }
      if disk.state.path.Some? {
        if !memory.bound || disk.state.path != Some(NewState) {
          return Raised;
        }
        :- SetAside(StateItem);
      }
      return Done;
    }

    /** Retires the new preferences and profile. */
    method RetireUserData() returns (o: Outcome)
      requires Undoing()
      modifies this`disk
      ensures Undoing() && KeepsFiles(old(disk), disk)
      ensures disk == old(disk).(preferences := disk.preferences, profile := disk.profile)
      ensures o.Done? ==> disk.preferences.path.None? && disk.profile.path.None?
      ensures NothingNew(old(disk)) ==> disk == old(disk)
      ensures !disturbed ==> o.Done?
    {
      if disk.preferences.path.Some? {
        :- SetAside(PreferencesItem);
      }
      if disk.profile.path.Some? {
        if memory.profileInode.None? || disk.profile.path != Some(Profile(memory.profileInode.value)) {
          return Raised;
        }
        :- SetAside(ProfileItem);
      }
      return Done;
    }

    /** Puts the legacy app and agent back. */
    method RestoreLegacy() returns (o: Outcome)
      requires Undoing()
      modifies this`disk
      ensures Undoing() && KeepsFiles(old(disk), disk)
      ensures disk == old(disk).(legacyApp := disk.legacyApp, legacyAgent := disk.legacyAgent)
      ensures o.Done? ==> LegacyInPlace(disk)
      ensures LegacyInPlace(old(disk)) ==> disk == old(disk)
      ensures !disturbed ==> o.Done?
    {
      if disk.legacyApp.aside.Some? {
        if disk.legacyApp.path.Some? || disk.legacyApp.aside != Some(LegacyApp) {
          return Raised;
        }
        :- PutBack(LegacyAppItem);
      }
      if disk.legacyAgent.aside.Some? {
        if disk.legacyAgent.path.Some? || disk.legacyAgent.aside != Some(LegacyAgent) {
          return Raised;
        }
        :- PutBack(LegacyAgentItem);
      }
      return if LegacyInPlace(disk) then Done else Raised;
    }

    /** Rollback met a half-written metadata file: the legacy files stay where they are. */
    ghost predicate Refused(o: Outcome, before: Disk)
      reads this
    {
      !o.Done? && !Cleanable(disk) && disk.legacyApp == before.legacyApp && disk.legacyAgent == before.legacyAgent
    }

    /** All file moves of rollback. The candidate ends in staging or in the failed folder. */
    method UndoFiles() returns (o: Outcome)
      requires Undoing()
      modifies this`disk
      ensures Undoing() && KeepsFiles(old(disk), disk)
      ensures o.Done? ==> LegacyInPlace(disk) && NothingNew(disk)
      ensures o.Done? && sealed ==> disk.stagedApp == Some(Candidate) || disk.app.aside == Some(Candidate)
      ensures LegacyInPlace(old(disk)) && NothingNew(old(disk)) ==> disk == old(disk)
      ensures !disturbed ==> (o.Done? <==> Cleanable(old(disk))) && disk.app.path.None?
      ensures Cleanable(disk) <==> Cleanable(old(disk))
      ensures !Cleanable(old(disk)) ==> Refused(o, old(disk))
    {
      o := Done;
      :- RetireInstall();
      :- RetireUserData();
      o := RestoreLegacy();
    }

    /** Stops a running new service and journals that it is stopped. */
    method StopForRollback() returns (o: Outcome)
      requires InStep()
      modifies this`journal, this`memory, this`newLoaded
      ensures InStep() && memory == old(memory).(phase := memory.phase)
      ensures journal == old(journal) || !journal.value.phase.Completed?
      ensures o.Done? ==> Undoing()
      ensures !disturbed ==> o.Done?
    {
      o := Done;
      :- Observe(disturbed);
      if newLoaded {
        if !memory.bound {
          return Raised;
        }
        :- Observe(disturbed);
        :- StopNew();
      }
      :- Observe(disturbed);
      o := Checkpoint(RollbackNewStopped);
    }

    /** Restarts the legacy service and commits the rollback. */
    method RestartOld() returns (o: Outcome)
      requires InStep() && !newLoaded && LegacyInPlace(disk) && NothingNew(disk)
      modifies this`journal, this`memory, this`oldLoaded, this`confirmed
      ensures InStep() && memory == old(memory).(phase := memory.phase)
      ensures journal == old(journal) || !journal.value.phase.Completed?
      ensures o.Done? ==> oldLoaded && journal == Some(memory) && memory.phase.RolledBack?
      ensures old(oldLoaded) ==> oldLoaded
      ensures !disturbed ==> o.Done?
    {
      hide Explained;
      confirmed := false;
      :- Observe(disturbed);
      :- Checkpoint(RollbackOldStartRequested);
      if !oldLoaded {
        :- StartOld();
      }
      :- SeeOwner();
      o := Checkpoint(RolledBack);
    }

    /** `rollback`. It reads no phase. Undisturbed it restores the legacy product if and only if
        no metadata write was interrupted, and repeating it changes nothing. Otherwise it takes
        the new app away and then refuses, leaving the legacy files in the backup folder. */
    method Rollback() returns (o: Outcome)
      requires InStep()
      modifies this`disk, this`journal, this`memory, this`oldLoaded, this`newLoaded, this`confirmed
      ensures InStep() && memory == old(memory).(phase := memory.phase) && KeepsFiles(old(disk), disk)
      ensures journal == old(journal) || !journal.value.phase.Completed?
      ensures o.Done? ==>
                && LegacyInPlace(disk) && NothingNew(disk) && oldLoaded && !newLoaded
                && journal == Some(memory) && memory.phase.RolledBack?
      ensures o.Done? && sealed ==> disk.stagedApp == Some(Candidate) || disk.app.aside == Some(Candidate)
      ensures !disturbed ==> (o.Done? <==> Cleanable(old(disk))) && disk.app.path.None?
      ensures Cleanable(disk) <==> Cleanable(old(disk))
      ensures !Cleanable(old(disk)) ==> Refused(o, old(disk))
      ensures old(LegacyInPlace(disk) && NothingNew(disk) && oldLoaded) ==> disk == old(disk) && oldLoaded && !newLoaded
    {
      hide Explained;
      o := Done;
      :- StopForRollback();
      :- UndoFiles();
      o := RestartOld();
    }

    // ---- Apply ----

    /** `copytree`: interrupted, or even completed while the source changed, it may leave anything. */
    method CopyCandidate() returns (o: Outcome)
      requires InStep() && !sealed && disk.stagedApp.None?
      modifies this`disk
      ensures InStep() && disk == old(disk).(stagedApp := disk.stagedApp)
      ensures !disturbed ==> o.Done? && disk.stagedApp == Some(Candidate)
    {
      var fate := Draw(disturbed);
      var exact: bool := *;
      if !fate.Before() {
        disk := disk.(stagedApp := Some(if !disturbed || (fate.Fine? && exact) then Candidate else Torn));
      }
      o := fate.Ends();
    }

    /** Builds everything private: the staged candidate, backups and profile, and the bindings. */
    method Stage() returns (o: Outcome)
      requires InStep() && !sealed && NothingNew(disk) && LegacyInPlace(disk) && oldLoaded && memory.phase.Preparing?
      requires journal == Some(memory) && !memory.bound && memory.profileInode.None?
      requires disk.stagedApp.None? && disk.stagedProfile.None? && disk.profile.aside.None?
      modifies this`disk, this`memory, this`sealed, this`nextInode
      ensures InStep() && NothingNew(disk) && LegacyInPlace(disk) && memory.phase.Preparing?
      ensures disk == old(disk).(stagedApp := disk.stagedApp, stagedProfile := disk.stagedProfile, backup := disk.backup)
      ensures o.Done? ==> disk.backup.Full? && sealed && disk.stagedApp == Some(Candidate) && memory.bound && memory.profileInode.Some?
                          && disk.stagedProfile == Some(Profile(memory.profileInode.value))
      ensures !disturbed ==> o.Done?
    {
      o := Done;
      :- CopyCandidate();
      // Staging must equal the sealed candidate.
      if disk.stagedApp != Some(Candidate) {
        return Raised;
      }
      sealed := true;
      :- Observe(disturbed);
      // The agent, release state and preferences are copied first, the profile last.
      disk := disk.(backup := Partial);
      var made := Draw(disturbed);
      if !made.Before() {
        disk, nextInode := disk.(stagedProfile := Some(Profile(nextInode))), nextInode + 1;
      }
      if !made.Fine? {
        return made.Ends();
      }
      memory := memory.(profileInode := Some(disk.stagedProfile.value.inode), bound := true);
      var copied := Draw(disturbed);
      if !copied.Before() {
        disk := disk.(backup := Full);
      }
      o := copied.Ends();
    }

    /** Moves the legacy files aside, the staged ones in, and writes the new metadata. */
    method InstallNew(importPreferences: bool) returns (o: Outcome)
      requires ReadyToInstall()
      modifies this`disk, this`journal, this`memory
      ensures InStep() && memory == old(memory).(phase := memory.phase)
      ensures o.Done? ==> NewInstalled(disk) && journal == Some(memory) && disk.backup.Full? && Imported(importPreferences)
                          && memory.phase.StartNewRequested?
      ensures !disturbed && !Tearing() ==>
                Cleanable(disk) && o == if DoomedTo(Moving) || DoomedTo(Publishing) || DoomedTo(Sealing) then Raised else Done
      ensures Tearing() ==> o.Died? && HalfInstalled()
    {
      o := Done;
      :- MoveLegacy();
      :- PublishStaged();
      :- WriteMetadata(importPreferences);
      :- Risk(Sealing);
      o := Checkpoint(StartNewRequested);
    }

    /** Moves the legacy files aside. */
    method MoveLegacy() returns (o: Outcome)
      requires ReadyToInstall()
      modifies this`disk, this`journal, this`memory
      ensures InStep() && memory == old(memory).(phase := memory.phase)
      ensures disk == old(disk).(legacyApp := disk.legacyApp, legacyAgent := disk.legacyAgent)
      ensures o.Done? ==> journal == Some(memory) && memory.phase.InstallNewRequested?
                          && disk.legacyApp.path.None? && disk.legacyAgent.path.None?
      ensures !disturbed ==> o == if DoomedTo(Moving) || DoomedTo(Publishing) then Raised else Done
    {
      o := Done;
      :- Checkpoint(MoveOldRequested);
      :- Risk(Moving);
      :- SetAside(LegacyAppItem);
      :- SetAside(LegacyAgentItem);
      :- Checkpoint(InstallNewRequested);
      o := Risk(Publishing);
    }

    /** The new preferences are there exactly if the import was asked for and there was something to
        import. */
    predicate Imported(importPreferences: bool)
      reads this
    {
      disk.preferences.path == if importPreferences && preferencesExist then Some(Preferences) else None
    }

    /** The new app is in, the legacy product aside, and the new agent file half written. */
    ghost predicate HalfInstalled()
      reads this
    {
      && journal.Some? && journal.value.phase.InstallNewRequested? && disk.agent.path == Some(Torn)
      && disk.app.path == Some(Candidate) && disk.legacyApp.path.None? && disk.legacyAgent.path.None?
    }

    /** Writes the imported preferences, the new agent and the new release state. */
    method WriteMetadata(importPreferences: bool) returns (o: Outcome)
      requires InStep() && journal == Some(memory) && memory.phase.InstallNewRequested? && memory.bound && sealed
      requires !oldLoaded && !newLoaded
      requires disk.agent == Pair(None, None) && disk.state == Pair(None, None) && disk.preferences == Pair(None, None)
      modifies this`disk
      ensures InStep()
      ensures disk == old(disk).(preferences := disk.preferences, agent := disk.agent, state := disk.state)
      ensures o.Done? ==> disk.agent.path == Some(NewAgent) && disk.state.path == Some(NewState) && Imported(importPreferences)
      ensures !disturbed && !Tearing() ==> o.Done?
      ensures Tearing() ==> o.Died? && disk.agent.path == Some(Torn)
    {
      if importPreferences && preferencesExist {
        :- WritePrivate(PreferencesItem, Preferences);
      }
      :- WritePrivate(AgentItem, NewAgent);
      o := WritePrivate(StateItem, NewState);
    }

    /** Renames the staged app and profile to their public paths. */
    method PublishStaged() returns (o: Outcome)
      requires InStep() && !newLoaded && sealed && journal == Some(memory) && memory.phase.InstallNewRequested?
      requires disk.stagedApp == Some(Candidate) && disk.app == Pair(None, None) && memory.profileInode.Some?
      requires disk.stagedProfile == Some(Profile(memory.profileInode.value)) && disk.profile == Pair(None, None)
      modifies this`disk
      ensures InStep()
      ensures disk == old(disk).(stagedApp := disk.stagedApp, app := disk.app,
                                 stagedProfile := disk.stagedProfile, profile := disk.profile)
      ensures o.Done? ==> disk.app.path == Some(Candidate) && disk.profile.path.Some?
      ensures !disturbed ==> o.Done?
    {
      var fate := Draw(disturbed);
      if !fate.Before() {
        disk := disk.(stagedApp := None, app := Pair(disk.stagedApp, None));
      }
      if !fate.Fine? {
        return fate.Ends();
      }
      var second := Draw(disturbed);
      if !second.Before() {
        disk := disk.(stagedProfile := None, profile := Pair(disk.stagedProfile, None));
      }
      o := second.Ends();
    }

    /** The first half: stage, then stop the legacy service under a durable intent. */
    method Retreat() returns (o: Outcome)
      requires InStep() && !sealed && NothingNew(disk) && LegacyInPlace(disk) && oldLoaded && !newLoaded && Untouched(disk)
      requires journal == Some(memory) && memory.phase.Preparing? && !memory.bound && memory.profileInode.None?
      modifies this`disk, this`journal, this`memory, this`sealed, this`nextInode, this`oldLoaded
      ensures InStep()
      ensures o.Done? ==> ReadyToInstall()
      ensures !disturbed ==> Cleanable(disk) && o == if DoomedTo(Staging) || DoomedTo(Stopping) then Raised else Done
    {
      hide Explained;
      o := Done;
      :- Stage();
      :- Risk(Staging);
      :- Checkpoint(StopOldRequested);
      :- Risk(Stopping);
      :- StopOld();
      :- Checkpoint(OldStopped);
      o := Observe(disturbed);
    }

    ghost predicate ReadyToInstall()
      reads this
    {
      && InStep() && journal == Some(memory) && memory.phase.OldStopped? && memory.bound
      && sealed && !oldLoaded && !newLoaded && NothingNew(disk) && LegacyInPlace(disk) && disk.backup.Full?
      && disk.stagedApp == Some(Candidate) && memory.profileInode.Some?
      && disk.stagedProfile == Some(Profile(memory.profileInode.value))
      && disk.agent == Pair(None, None) && disk.state == Pair(None, None) && disk.preferences == Pair(None, None)
    }

    /** The body of `apply` after the first checkpoint. */
    method Forward(importPreferences: bool) returns (o: Outcome)
      requires InStep() && !sealed && NothingNew(disk) && LegacyInPlace(disk) && oldLoaded && !newLoaded && Untouched(disk)
      requires journal == Some(memory) && memory.phase.Preparing? && !memory.bound && memory.profileInode.None?
      modifies this`disk, this`journal, this`memory, this`sealed, this`nextInode, this`oldLoaded, this`newLoaded, this`confirmed
      ensures InStep()
      ensures o.Done? ==> journal == Some(memory) && memory.phase.Completed? && newLoaded && NewInstalled(disk)
                          && Imported(importPreferences)
      ensures Calm() ==> o.Done?
      ensures Failing() ==> o.Raised? && Cleanable(disk)
      ensures Tearing() ==> o.Died? && HalfInstalled()
    {
      hide Explained;
      o := Done;
      :- Retreat();
      :- InstallNew(importPreferences);
      o := Activate();
    }

    /** Starts the new service and commits once it is seen running well. */
    method Activate() returns (o: Outcome)
      requires InStep() && journal == Some(memory) && memory.phase.StartNewRequested? && memory.bound
      requires !oldLoaded && !newLoaded && NewInstalled(disk) && disk.backup.Full?
      modifies this`journal, this`memory, this`newLoaded, this`confirmed
      ensures InStep()
      ensures o.Done? ==> journal == Some(memory) && memory.phase.Completed? && newLoaded
      ensures !disturbed ==> o == if DoomedTo(Starting) || DoomedTo(Checking) then Raised else Done
    {
      hide Explained;
      o := Done;
      :- Risk(Starting);
      :- StartNew();
      :- Risk(Checking);
      :- SeeOwner();
      o := Checkpoint(Completed);
    }

    /** What `plan` asks: no migration was ever begun, the legacy product is installed and running,
        and nothing new exists. */
    predicate CanBegin()
      reads this
    {
      !work && journal.None? && LegacyInPlace(disk) && NothingNew(disk) && oldLoaded && !newLoaded
    }

    /** `plan` and the first checkpoint: refuses unless the legacy product owns the machine,
        nothing new exists and no transaction was ever begun. */
    method Begin() returns (o: Outcome)
      requires Inv()
      modifies this`work, this`journal, this`memory
      ensures Inv()
      ensures o.Done? ==> old(journal).None? && LegacyInPlace(disk) && NothingNew(disk) && oldLoaded && !newLoaded
                          && !sealed && Untouched(disk)
      ensures o.Done? ==> journal == Some(memory) && memory == Document(Preparing, None, false)
      ensures !old(CanBegin()) ==> o.Raised? && journal == old(journal)
      ensures !disturbed && doom == Some(Unready) ==> journal == old(journal) && work == old(work)
      ensures !disturbed ==> o == if old(CanBegin()) && doom != Some(Unready) then Done else Raised
      ensures !o.Done? && journal.None? ==> memory == old(memory) || work
    {
      if !CanBegin() || (!disturbed && doom == Some(Unready)) {
        return Raised;
      }
      :- Observe(disturbed);
      var made := Draw(disturbed);
      if !made.Before() {
        work := true;
      }
      if !made.Fine? {
        return made.Ends();
      }
      memory := Document(Preparing, None, false);
      var fate := Draw(disturbed);
      if !fate.Before() {
        journal := Some(memory);
      }
      o := fate.Ends();
    }

    /** `apply`: a failure after the first checkpoint rolls back at once. If one step raises, the
        legacy product is back and running when it returns. */
    method Apply(importPreferences: bool) returns (o: Outcome)
      requires Inv()
      modifies this
      ensures Inv() && disturbed == old(disturbed) && doom == old(doom)
      ensures old(journal).Some? ==> o != Done && journal == old(journal) && disk == old(disk)
      ensures o.Done? ==> journal.Some? && journal.value.phase.Completed? && NewInstalled(disk) && newLoaded && !oldLoaded
                          && Imported(importPreferences)
      ensures Failing() && old(CanBegin()) ==>
                && o.Raised? && journal.Some? && journal.value.phase.RolledBack?
                && LegacyInPlace(disk) && NothingNew(disk) && oldLoaded && !newLoaded
      ensures Calm() ==> (o.Done? <==> old(CanBegin()))
      ensures Calm() && o != Done ==> journal == old(journal) && disk == old(disk)
      ensures Tearing() && old(CanBegin()) ==> o.Died? && HalfInstalled()
      ensures !disturbed && doom == Some(Unready) ==> o.Raised? && journal == old(journal) && disk == old(disk) && work == old(work)
    {
      hide Explained;
      o := Done;
      :- Begin();
      o := Forward(importPreferences);
      if o.Raised? {
        var undone := Rollback();
        o := if undone.Died? then Died else Raised;
      }
    }

    /** `--recover` of an interruption, or `--rollback` of a completed migration: each refuses
        the other's case, both run the same rollback. Undisturbed it ends with the legacy
        product restored and running if and only if no metadata write was interrupted. */
    method RecoverOrUndo(completed: bool) returns (o: Outcome)
      requires Inv()
      modifies this`disk, this`journal, this`memory, this`oldLoaded, this`newLoaded, this`confirmed
      ensures Inv() && KeepsFiles(old(disk), disk)
      ensures journal.None? <==> old(journal).None?
      ensures o.Done? ==> journal.Some? && journal.value.phase.RolledBack? && oldLoaded && !newLoaded
                          && LegacyInPlace(disk) && NothingNew(disk)
      ensures o.Done? && sealed ==> disk.stagedApp == Some(Candidate) || disk.app.aside == Some(Candidate)
      ensures !disturbed ==> (o.Done? <==> old(journal).Some? && old(journal).value.phase.Completed? == completed
                                           && Cleanable(old(disk)))
      ensures Cleanable(disk) <==> Cleanable(old(disk))
      ensures !completed && old(journal).Some? ==> (journal.value.phase.Completed? <==> old(journal).value.phase.Completed?)
      ensures old(journal).Some? && !Cleanable(old(disk)) ==> Refused(o, old(disk))
      ensures !disturbed && old(journal).Some? && old(journal).value.phase.Completed? == completed ==> disk.app.path.None?
      ensures !disturbed && old(journal.Some? && journal.value.phase.RolledBack? && oldLoaded) && !completed ==>
                disk == old(disk) && journal == old(journal)
    {
      if journal.None? {
        return Raised;
      }
      memory := journal.value;
      if memory.phase.Completed? != completed {
        return Raised;
      }
      o := Rollback();
    }

    /** Rollback is re-entrant: after any number of recoveries that failed or died anywhere, one
        undisturbed recovery restores the legacy product, if and only if no metadata write was
        interrupted in the first place. */
    method RecoverUntilCalm(attempts: nat) returns (o: Outcome)
      requires Inv() && journal.Some? && !journal.value.phase.Completed?
      modifies this
      ensures Inv() && journal.Some? && (o.Done? <==> Cleanable(old(disk)))
      ensures o.Done? ==> journal.value.phase.RolledBack? && LegacyInPlace(disk) && NothingNew(disk) && oldLoaded && !newLoaded
    {
      hide Explained;
      for i := 0 to attempts
        invariant Inv() && journal.Some? && !journal.value.phase.Completed? && (Cleanable(disk) <==> Cleanable(old(disk)))
      {
        disturbed, doom := *, *;
        var failed := RecoverOrUndo(false);
      }
      disturbed, doom := false, None;
      o := RecoverOrUndo(false);
    }

    /** Any history of migrations, recoveries and rollbacks, each failing or dying wherever it
        likes. No two owners, no mixed terminal state, and both products are kept. */
    method AnyHistory(requests: seq<Request>)
      requires Inv()
      modifies this
      ensures Inv() && !(oldLoaded && newLoaded)
      ensures journal.Some? ==> Either(disk.legacyApp, LegacyApp) && Either(disk.legacyAgent, LegacyAgent)
      ensures journal.Some? && sealed ==> CandidateKept(disk)
      ensures journal.Some? && journal.value.phase.Completed? ==> NewInstalled(disk)
      ensures journal.Some? && journal.value.phase.RolledBack? ==> LegacyInPlace(disk) && NothingNew(disk)
    {
      for i := 0 to |requests|
        invariant Inv()
      {
        disturbed, doom := *, *;
        match requests[i] {
          case Migrate(importPreferences) =>
            var o := Apply(importPreferences);
          case Undo(completed) =>
            var o := RecoverOrUndo(completed);
        }
      }
    }

    /** A half-written metadata file is for good: whatever is asked, disturbed or not, the legacy
        app and agent stay where they are. */
    method TornForever(requests: seq<Request>)
      requires Inv() && journal.Some? && !Cleanable(disk)
      modifies this
      ensures Inv() && journal.Some? && !Cleanable(disk)
      ensures disk.legacyApp == old(disk).legacyApp && disk.legacyAgent == old(disk).legacyAgent
    {
      hide Explained;
      for i := 0 to |requests|
        invariant Inv() && journal.Some? && !Cleanable(disk)
        invariant disk.legacyApp == old(disk).legacyApp && disk.legacyAgent == old(disk).legacyAgent
      {
        disturbed, doom := *, *;
        match requests[i] {
          case Migrate(importPreferences) =>
            var o := Apply(importPreferences);
          case Undo(completed) =>
            var o := RecoverOrUndo(completed);
        }
      }
    }
  }

  datatype Request = Migrate(importPreferences: bool) | Undo(completed: bool)

  /** The promise that every crash point can be rolled back is false. This is a run of the code: a
      migration dies in the middle of writing the new agent file, and an undisturbed recovery takes
      the new app away and then refuses. Neither app is at its path and neither service runs; by
      `TornForever` no request brings the legacy product back. */
  method InterruptedAgentWrite(disk: Disk, preferencesExist: bool, importPreferences: bool, scratch: Document)
    returns (m: Migrator)
    requires Untouched(disk) && LegacyInPlace(disk) && NothingNew(disk)
    ensures fresh(m) && m.Inv() && m.journal.Some? && !m.journal.value.phase.RolledBack? && !Cleanable(m.disk)
    ensures m.disk.legacyApp.path.None? && m.disk.legacyAgent.path.None? && m.disk.app.path.None?
    ensures !m.oldLoaded && !m.newLoaded
  {
    m := new Migrator(disk, true, preferencesExist, scratch);
    m.disturbed, m.doom := false, Some(TornAgent);
    var o := m.Apply(importPreferences);
    m.doom := None;
    o := m.RecoverOrUndo(false);
  }
}
