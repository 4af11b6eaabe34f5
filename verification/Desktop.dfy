/** The Linux desktop-file transaction (scripts/install_linux_desktop.py): `plan`, `apply` and
    `rollback` over public files that another actor may create, replace or remove at any
    time. */
module Desktop {
  import opened Faults

  /** A regular file by identity: its inode, content digest and mode. */
  datatype File = File(inode: nat, sha: nat, mode: nat) {
    function Stamp(): (nat, nat) { (sha, mode) }
  }

  /** One destination. It is created when nothing was there, otherwise preserved. */
  datatype Entry = Entry(path: nat, before: Option<(nat, nat)>, sha: nat) {
    predicate Create() { before.None? }
  }

  datatype Phase = Preparing | Installing | Completed | Blocked | RolledBack

  /** `owned` holds one inode receipt per staged entry, `conflicts` the paths where rollback
      met something that was not its own. */
  datatype Document = Document(plan: seq<Entry>, phase: Phase, owned: map<nat, File>, conflicts: seq<nat>)

  datatype Target = Target(path: nat, sha: nat)

  const MODE: nat := 0x1A4

  /** Every file that should exist is at some public, staged or retired place. */
  ghost predicate Accounted(ledger: set<File>, public: map<nat, File>, payloads: map<nat, File>, retired: map<nat, File>) {
    ledger == public.Values + payloads.Values + retired.Values
  }

  ghost predicate DistinctPaths(plan: seq<Entry>) {
    forall i, j :: 0 <= i < j < |plan| ==> plan[i].path != plan[j].path
  }

  predicate ValidReceipts(d: Document) {
    forall i :: i in d.owned ==> i < |d.plan| && d.plan[i].Create() && d.owned[i].Stamp() == (d.plan[i].sha, MODE)
  }

  ghost predicate Within(a: map<nat, File>, b: map<nat, File>) {
    forall i :: i in a ==> i in b && a[i] == b[i]
  }

  lemma WithinGrows(a: map<nat, File>, b: map<nat, File>, k: nat, f: File)
    requires Within(a, b) && k !in b
    ensures Within(a, b[k := f])
  {
  }

  /** Entry `i` of an undisturbed transaction: its inode is staged, published or retired, and
      is public only with a durable receipt. */
  ghost predicate Settled(e: Entry, i: nat, made: map<nat, File>, owned: map<nat, File>,
                          public: map<nat, File>, payloads: map<nat, File>, retired: map<nat, File>)
  {
    if i !in made then e.path !in public && i !in payloads && i !in retired
    else
      || (i in payloads && payloads[i] == made[i] && e.path !in public && i !in retired)
      || (i !in payloads && e.path in public && public[e.path] == made[i] && i !in retired && i in owned)
      || (i !in payloads && e.path !in public && i in retired && retired[i] == made[i])
  }

  /** Every entry describes `files`, and a preserved one already has the wanted content. */
  ghost predicate PlanHolds(plan: seq<Entry>, files: map<nat, File>) {
    forall i :: 0 <= i < |plan| ==>
      && plan[i].before == (if plan[i].path in files then Some(files[plan[i].path].Stamp()) else None)
      && (plan[i].before.Some? ==> plan[i].before.value.0 == plan[i].sha)
  }

  /** Without an outside actor the public map is the original one plus published entries. */
  ghost predicate Tidy(d: Document, base: map<nat, File>, made: map<nat, File>,
                       public: map<nat, File>, payloads: map<nat, File>, retired: map<nat, File>)
  {
    && DistinctPaths(d.plan) && PlanHolds(d.plan, base)
    && (forall i :: i in made ==> i < |d.plan| && d.plan[i].Create())
    && (forall i :: 0 <= i < |d.plan| && d.plan[i].Create() ==>
          d.plan[i].path !in base && Settled(d.plan[i], i, made, d.owned, public, payloads, retired))
    && (forall p :: p in base ==> p in public && public[p] == base[p])
    && (forall p :: p in public && p !in base ==> Created(d.plan, p))
  }

  /** The destination is as the plan saw it. */
  predicate StillAt(e: Entry, public: map<nat, File>) {
    e.before == if e.path in public then Some(public[e.path].Stamp()) else None
  }

  ghost predicate Created(plan: seq<Entry>, p: nat) {
    exists i :: 0 <= i < |plan| && plan[i].Create() && plan[i].path == p
  }

  /** An exclusive rename destroys no file. */
  lemma MoveKeepsFiles(a: map<nat, File>, k: nat, b: map<nat, File>, l: nat)
    requires k in a && l !in b
    ensures (a - {k}).Values + b[l := a[k]].Values == a.Values + b.Values
  {
    var a', b' := a - {k}, b[l := a[k]];
    forall f | f in a.Values + b.Values
      ensures f in a'.Values + b'.Values
    {
      if f in b.Values {
        var q :| q in b && b[q] == f;
        assert b'[q] == f;
      } else {
        var q :| q in a && a[q] == f;
        if q == k {
          assert b'[l] == f;
        } else {
          assert a'[q] == f;
        }
      }
    }
  }

  lemma StageKeepsFiles(ledger: set<File>, public: map<nat, File>, payloads: map<nat, File>,
                        retired: map<nat, File>, k: nat, f: File)
    requires k !in payloads && Accounted(ledger, public, payloads, retired)
    ensures Accounted(ledger + {f}, public, payloads[k := f], retired)
  {
    assert payloads[k := f][k] == f;
    forall g | g in payloads.Values
      ensures g in payloads[k := f].Values
    {
      var q :| q in payloads && payloads[q] == g;
      assert payloads[k := f][q] == g;
    }
  }

  lemma PublishKeepsTidy(d: Document, base: map<nat, File>, made: map<nat, File>, public: map<nat, File>,
                         payloads: map<nat, File>, retired: map<nat, File>, i: nat)
    requires Tidy(d, base, made, public, payloads, retired)
    requires i in d.owned && i in made && i in payloads && d.plan[i].path !in public
    ensures Tidy(d, base, made, public[d.plan[i].path := payloads[i]], payloads - {i}, retired)
  {
    var path := d.plan[i].path;
    assert Settled(d.plan[i], i, made, d.owned, public, payloads, retired);
    forall j | 0 <= j < |d.plan| && d.plan[j].Create()
      ensures d.plan[j].path !in base
      ensures Settled(d.plan[j], j, made, d.owned, public[path := payloads[i]], payloads - {i}, retired)
    {
      assert Settled(d.plan[j], j, made, d.owned, public, payloads, retired);
    }
    assert Created(d.plan, path);
  }

  lemma RetireKeepsTidy(d: Document, base: map<nat, File>, made: map<nat, File>, public: map<nat, File>,
                        payloads: map<nat, File>, retired: map<nat, File>, i: nat)
    requires Tidy(d, base, made, public, payloads, retired)
    requires i in made && d.plan[i].path in public && i !in retired
    ensures Tidy(d, base, made, public - {d.plan[i].path}, payloads, retired[i := public[d.plan[i].path]])
  {
    var path := d.plan[i].path;
    assert Settled(d.plan[i], i, made, d.owned, public, payloads, retired);
    forall j | 0 <= j < |d.plan| && d.plan[j].Create()
      ensures d.plan[j].path !in base
      ensures Settled(d.plan[j], j, made, d.owned, public - {path}, payloads, retired[i := public[path]])
    {
      assert Settled(d.plan[j], j, made, d.owned, public, payloads, retired);
    }
  }

  lemma StageKeepsTidy(d: Document, base: map<nat, File>, made: map<nat, File>, public: map<nat, File>,
                       payloads: map<nat, File>, retired: map<nat, File>, i: nat, f: File)
    requires Tidy(d, base, made, public, payloads, retired)
    requires i < |d.plan| && d.plan[i].Create() && i !in made
    ensures Tidy(d, base, made[i := f], public, payloads[i := f], retired)
  {
    assert Settled(d.plan[i], i, made, d.owned, public, payloads, retired);
    forall j | 0 <= j < |d.plan| && d.plan[j].Create()
      ensures d.plan[j].path !in base
      ensures Settled(d.plan[j], j, made[i := f], d.owned, public, payloads[i := f], retired)
    {
      assert Settled(d.plan[j], j, made, d.owned, public, payloads, retired);
    }
  }

  /** What `plan` records for a target, and when it refuses one. */
  predicate Accepts(t: Target, public: map<nat, File>) {
    t.path in public ==> public[t.path].sha == t.sha
  }

  function EntryFor(t: Target, public: map<nat, File>): Entry {
    Entry(t.path, if t.path in public then Some(public[t.path].Stamp()) else None, t.sha)
  }

  /** The reviewed plan is the one `plan` would make of `public`. */
  ghost predicate Reviewed(targets: seq<Target>, reviewed: seq<Entry>, public: map<nat, File>) {
    && |reviewed| == |targets|
    && forall i :: 0 <= i < |targets| ==> Accepts(targets[i], public) && reviewed[i] == EntryFor(targets[i], public)
  }

  /** Every target is in place with the wanted content, and nothing else changed. */
  ghost predicate Installed(plan: seq<Entry>, base: map<nat, File>, public: map<nat, File>) {
    && (forall i :: 0 <= i < |plan| ==> plan[i].path in public && public[plan[i].path].sha == plan[i].sha)
    && (forall p :: p in base ==> p in public && public[p] == base[p])
    && (forall p :: p in public && p !in base ==> Created(plan, p))
  }

  /** Where the public and the retired files are. */
  datatype Places = Places(public: map<nat, File>, retired: map<nat, File>)

  /** A foreign file captured by an earlier rollback waits in the private place of entry `i`. */
  predicate Captured(d: Document, at: Places, i: nat) {
    i in d.owned && i in at.retired && at.retired[i] != d.owned[i]
  }

  /** Something that is not the transaction's own is in the way of entry `i`. */
  predicate Conflicts(d: Document, at: Places, i: nat)
    requires i < |d.plan| && i in d.owned
  {
    var path := d.plan[i].path;
    if i in at.retired then at.retired[i] != d.owned[i] || path in at.public
    else path in at.public && at.public[path] != d.owned[i]
  }

  /** The file of entry `i` is where it was. */
  predicate SameAt(d: Document, before: Places, after: Places, i: nat)
    requires i < |d.plan|
  {
    var path := d.plan[i].path;
    && (path in after.public <==> path in before.public) && (path in after.public ==> after.public[path] == before.public[path])
    && (i in after.retired <==> i in before.retired) && (i in after.retired ==> after.retired[i] == before.retired[i])
  }

  /** A file captured at entry `i` whose path was free is back at its path. */
  predicate ReturnedAt(d: Document, before: Places, after: Places, i: nat)
    requires i < |d.plan|
  {
    Captured(d, before, i) && d.plan[i].path !in before.public ==>
      d.plan[i].path in after.public && after.public[d.plan[i].path] == before.retired[i] && i !in after.retired
  }

  /** The rollback loop between two turns: the entries below `n` are untouched, the others done. */
  ghost predicate DoneFrom(d: Document, before: Places, after: Places, n: nat) {
    && n <= |d.plan|
    && (forall j :: 0 <= j < n ==> SameAt(d, before, after, j))
    && (forall j :: n <= j < |d.plan| ==> ReturnedAt(d, before, after, j))
  }

  ghost predicate Except(a: map<nat, File>, b: map<nat, File>, k: nat) {
    forall p :: p != k ==> (p in a <==> p in b) && (p in a ==> a[p] == b[p])
  }

  /** A turn that changes nothing but the two places of entry `i`, and there what it should. */
  lemma TurnKeeps(d: Document, before: Places, now: Places, after: Places, i: nat)
    requires DistinctPaths(d.plan) && i < |d.plan| && DoneFrom(d, before, now, i + 1)
    requires Except(now.public, after.public, d.plan[i].path) && Except(now.retired, after.retired, i)
    requires ReturnedAt(d, now, after, i)
    ensures DoneFrom(d, before, after, i)
  {
    forall j | 0 <= j < |d.plan| && j != i
      ensures SameAt(d, now, after, j)
    {
    }
    forall j | 0 <= j < i
      ensures SameAt(d, before, after, j)
    {
      assert SameAt(d, before, now, j);
    }
    forall j | i <= j < |d.plan|
      ensures ReturnedAt(d, before, after, j)
    {
      if j == i {
        assert SameAt(d, before, now, i);
      } else {
        assert ReturnedAt(d, before, now, j);
      }
    }
  }

  lemma NothingDone(d: Document, at: Places)
    ensures DoneFrom(d, at, at, |d.plan|)
  {
  }

  /** No entry from `n` on has anything foreign in its way. */
  ghost predicate Clear(d: Document, at: Places, n: nat) {
    forall j :: n <= j < |d.plan| && j in d.owned ==> !Conflicts(d, at, j)
  }

  /** A step of `apply` that can fail: the executable changed before publication, the publication of
      one entry, or the executable changed after it. */
  datatype Hazard = BeforePublication | Publishing(entry: nat) | AfterPublication {
    predicate Met(plan: seq<Entry>) {
      Publishing? ==> entry < |plan| && plan[entry].Create()
    }
  }

  class Transaction {
    /** Whether anything may fail in the current invocation, or only the one step `doom`; and
        whether an outside actor acts during it. */
    var disturbed: bool
    var doom: Option<Hazard>
    var foreign: bool

    // Durable state: public files, and the private directories only this transaction writes.
    var public: map<nat, File>
    var payloads: map<nat, File>
    var retired: map<nat, File>
    var journal: Option<Document>
    var directories: bool
    var next: nat

    var memory: Document

    // Every file that exists, as decided by everyone: only the outside actor may take one out.
    ghost var ledger: set<File>
    // The public files before apply, the inodes it staged, and whether an actor interfered since.
    ghost var base: map<nat, File>
    ghost var made: map<nat, File>
    ghost var quiet: bool

    constructor (public: map<nat, File>, scratch: Document)
      ensures Inv() && journal == None && this.public == public
    {
      disturbed, doom, foreign := true, None, true;
      this.public, payloads, retired, journal, directories := public, map[], map[], None, false;
      next, memory := 0, scratch;
      ledger, base, made, quiet := public.Values, public, map[], true;
    }

    ghost predicate Inv()
      reads this
    {
      && Accounted(ledger, public, payloads, retired)
      && (journal.None? ==> payloads == map[] && retired == map[]) && (journal.Some? ==> directories)
      && (journal.Some? ==>
            && ValidReceipts(journal.value) && Within(journal.value.owned, made) && DistinctPaths(journal.value.plan)
            && (quiet ==> Tidy(journal.value, base, made, public, payloads, retired)))
    }

    /** The document in memory extends the journaled one. */
    ghost predicate InStep()
      reads this
    {
      && Inv() && journal.Some? && memory.plan == journal.value.plan
      && ValidReceipts(memory) && Within(journal.value.owned, memory.owned) && Within(memory.owned, made)
    }

    predicate Doomed(plan: seq<Entry>)
      reads this
    {
      doom.Some? && doom.value.Met(plan)
    }

    /** A step of `apply` meets its hazard. */
    method Risk(hazard: Hazard) returns (o: Outcome)
      ensures !disturbed ==> o == if doom == Some(hazard) then Raised else Done
    {
      if !disturbed && doom == Some(hazard) {
        return Raised;
      }
      o := Observe(disturbed);
    }

    /** The outside actor: the public files become anything else. */
    method Interfere()
      requires Inv()
      modifies this`public, this`ledger, this`quiet
      ensures Inv()
      ensures !foreign ==> public == old(public) && ledger == old(ledger) && quiet == old(quiet)
      ensures quiet ==> old(quiet) && public == old(public)
    {
      var files: map<nat, File> := *;
      if foreign {
        public, quiet := files, false;
        ledger := public.Values + payloads.Values + retired.Values;
      }
    }

    /** `save`: only the private journal is ever replaced. */
    method Save() returns (o: Outcome)
      requires InStep()
      modifies this`journal
      ensures InStep()
      ensures journal == Some(memory) || journal == old(journal)
      ensures o.Done? ==> journal == Some(memory)
      ensures !disturbed ==> o.Done?
    {
      var fate := Draw(disturbed);
      if !fate.Before() {
        journal := Some(memory);
      }
      o := fate.Ends();
    }

    /** `exclusive_rename(staging, path)`: publishes entry `i` under its durable receipt and phase. */
    method Publish(i: nat) returns (o: Outcome)
      requires InStep() && journal == Some(memory) && i in memory.owned && memory.phase.Installing?
      modifies this`public, this`payloads
      ensures InStep()
      ensures (public == old(public) && payloads == old(payloads))
              || (i in old(payloads) && memory.plan[i].path !in old(public)
                  && public == old(public)[memory.plan[i].path := old(payloads)[i]] && payloads == old(payloads) - {i})
      ensures o.Done? ==> i !in payloads && i in old(payloads)
      ensures !disturbed && i in old(payloads) && memory.plan[i].path !in old(public) ==> o.Done?
    {
      hide Tidy;
      var path := memory.plan[i].path;
      if i !in payloads || path in public {
        return Raised;
      }
      var fate := Draw(disturbed);
      if !fate.Before() {
        MoveKeepsFiles(payloads, i, public, path);
        if quiet {
          PublishKeepsTidy(memory, base, made, public, payloads, retired, i);
        }
        public, payloads := public[path := payloads[i]], payloads - {i};
      }
      o := fate.Ends();
    }

    /** `exclusive_rename(path, retired)`: takes whatever is at the path, deleting nothing. */
    method Retire(i: nat) returns (o: Outcome)
      requires InStep() && i in memory.owned && i !in retired
      modifies this`public, this`retired
      ensures InStep()
      ensures (public == old(public) && retired == old(retired))
              || (memory.plan[i].path in old(public)
                  && public == old(public) - {memory.plan[i].path}
                  && retired == old(retired)[i := old(public)[memory.plan[i].path]])
      ensures o.Done? ==> memory.plan[i].path !in public && i in retired
      ensures !disturbed && memory.plan[i].path in old(public) ==> o.Done?
    {
      hide Tidy;
      var path := memory.plan[i].path;
      if path !in public {
        return Raised;
      }
      var fate := Draw(disturbed);
      if !fate.Before() {
        MoveKeepsFiles(public, path, retired, i);
        if quiet {
          RetireKeepsTidy(journal.value, base, made, public, payloads, retired, i);
        }
        public, retired := public - {path}, retired[i := public[path]];
      }
      o := fate.Ends();
    }

    /** `exclusive_rename(retired, path)`: gives a captured foreign file back. */
    method GiveBack(i: nat) returns (o: Outcome)
      requires InStep() && i in memory.owned && i in retired && !quiet
      modifies this`public, this`retired
      ensures InStep()
      ensures (public == old(public) && retired == old(retired))
              || (memory.plan[i].path !in old(public)
                  && public == old(public)[memory.plan[i].path := old(retired)[i]] && retired == old(retired) - {i})
      ensures o.Done? ==> i !in retired
      ensures !disturbed ==> (o.Done? <==> memory.plan[i].path !in old(public))
    {
      hide Tidy;
      var path := memory.plan[i].path;
      if path in public {
        return Raised;
      }
      var fate := Draw(disturbed);
      if !fate.Before() {
        MoveKeepsFiles(retired, i, public, path);
        public, retired := public[path := retired[i]], retired - {i};
      }
      o := fate.Ends();
    }

    // ---- Rollback ----

    function Here(): Places
      reads this
    {
      Places(public, retired)
    }

    /** One entry of the rollback loop. A foreign file stays captured only if its path is taken;
        without a conflict nothing foreign is captured at all. Alone and undisturbed, a captured
        file goes back to its free path, the transaction's own file is retired, and everything
        else stays where it is. */
    method Visit(i: nat) returns (o: Outcome, conflict: bool)
      requires InStep() && i in memory.owned
      modifies this`public, this`retired, this`ledger, this`quiet
      ensures InStep() && (quiet ==> old(quiet) && !conflict) && (!foreign ==> quiet == old(quiet) && ledger == old(ledger))
      ensures Except(old(retired), retired, i)
      ensures o.Done? && !conflict && i in retired ==> retired[i] == memory.owned[i]
      ensures o.Done? && Captured(memory, Here(), i) ==> memory.plan[i].path in public
      ensures quiet ==> public == old(public) || public == old(public) - {memory.plan[i].path}
      ensures quiet && o.Done? ==> memory.plan[i].path !in public
      ensures !foreign ==> Except(old(public), public, memory.plan[i].path)
      ensures !disturbed && !foreign ==>
                && o.Done? && (conflict <==> Conflicts(memory, old(Here()), i)) && ReturnedAt(memory, old(Here()), Here(), i)
      ensures !disturbed && !foreign && !Conflicts(memory, old(Here()), i) ==>
                && memory.plan[i].path !in public
                && (memory.plan[i].path in old(public) ==> i in retired && retired[i] == memory.owned[i])
      ensures !disturbed && !foreign && Conflicts(memory, old(Here()), i) && memory.plan[i].path in old(public) ==>
                Here() == old(Here())
    {
      hide Accounted, Tidy;
      conflict := false;
      var path, wanted := memory.plan[i].path, memory.owned[i];
      Interfere();
      if quiet {
        SettledHere(i);
      }
      if i in retired {
        o, conflict := Release(i);
      } else if path !in public {
        o := Done;
      } else if public[path] != wanted {
        o, conflict := Done, true;
      } else {
        o, conflict := RetireOwn(i);
      }
    }

    /** Something was retired for entry `i` before. A foreign file is given back if its path is free. */
    method Release(i: nat) returns (o: Outcome, conflict: bool)
      requires InStep() && i in memory.owned && i in retired
      requires quiet ==> retired[i] == memory.owned[i] && memory.plan[i].path !in public
      modifies this`public, this`retired, this`ledger, this`quiet
      ensures InStep() && (quiet ==> old(quiet) && !conflict && Here() == old(Here()))
      ensures !foreign ==> quiet == old(quiet) && ledger == old(ledger) && Except(old(public), public, memory.plan[i].path)
      ensures Except(old(retired), retired, i)
      ensures o.Done? ==> (conflict <==> Conflicts(memory, old(Here()), i))
      ensures o.Done? && Captured(memory, Here(), i) ==> memory.plan[i].path in public
      ensures !disturbed && !foreign ==> o.Done? && ReturnedAt(memory, old(Here()), Here(), i)
      ensures !Captured(memory, old(Here()), i) || memory.plan[i].path in old(public) ==> o.Done? && Here() == old(Here())
    {
      hide Accounted, Tidy;
      conflict := false;
      var path := memory.plan[i].path;
      if retired[i] != memory.owned[i] {
        if path !in public {
          Interfere();
          :- GiveBack(i);
        }
        return Done, true;
      }
      return Done, path in public;
    }

    /** The transaction's own file was seen at the path: whatever is there by now is captured, and
        given back if it turns out to be foreign and the path is free. */
    method RetireOwn(i: nat) returns (o: Outcome, conflict: bool)
      requires InStep() && i in memory.owned && i !in retired
      requires memory.plan[i].path in public && public[memory.plan[i].path] == memory.owned[i]
      modifies this`public, this`retired, this`ledger, this`quiet
      ensures InStep() && (quiet ==> old(quiet) && !conflict)
      ensures !foreign ==> quiet == old(quiet) && ledger == old(ledger) && Except(old(public), public, memory.plan[i].path)
      ensures Except(old(retired), retired, i)
      ensures o.Done? ==> (i in retired && retired[i] == memory.owned[i] <==> !conflict)
      ensures o.Done? && Captured(memory, Here(), i) ==> memory.plan[i].path in public
      ensures quiet ==> public == old(public) || public == old(public) - {memory.plan[i].path}
      ensures quiet && o.Done? ==> memory.plan[i].path !in public
      ensures !disturbed && !foreign ==> o.Done? && !conflict && memory.plan[i].path !in public
    {
      hide Accounted, Tidy;
      conflict := false;
      var path, wanted := memory.plan[i].path, memory.owned[i];
      Interfere();
      :- Retire(i);
      if retired[i] != wanted {
        :- HandBack(i);
        return Done, true;
      }
      return Done, false;
    }

    /** A foreign file was just captured: it goes back unless its path is taken by then. */
    method HandBack(i: nat) returns (o: Outcome)
      requires InStep() && Captured(memory, Here(), i) && !quiet
      modifies this`public, this`retired, this`ledger, this`quiet
      ensures InStep() && !quiet && Except(old(retired), retired, i)
      ensures !foreign ==> ledger == old(ledger) && Except(old(public), public, memory.plan[i].path)
      ensures o.Done? ==> if i in retired then retired[i] == old(retired)[i] && memory.plan[i].path in public else true
      ensures !disturbed ==> o.Done?
      ensures !disturbed && !foreign && memory.plan[i].path !in old(public) ==>
                i !in retired && public == old(public)[memory.plan[i].path := old(retired)[i]]
    {
      hide Accounted, Tidy;
      o := Done;
      var path := memory.plan[i].path;
      Interfere();
      if path !in public {
        Interfere();
        if path !in public {
          o := GiveBack(i);
        }
      }
    }

    lemma Turned(before: Places, now: Places, i: nat)
      requires InStep() && i < |memory.plan| && DoneFrom(memory, before, now, i + 1)
      requires if i in memory.owned
               then
                 && Except(now.public, public, memory.plan[i].path) && Except(now.retired, retired, i)
                 && ReturnedAt(memory, now, Here(), i)
               else Here() == now
      ensures DoneFrom(memory, before, Here(), i)
      ensures i in memory.owned ==> Conflicts(memory, now, i) == Conflicts(memory, before, i)
    {
      hide Accounted, Tidy;
      assert SameAt(memory, before, now, i);
      TurnKeeps(memory, before, now, Here(), i);
    }

    /** Where an undisturbed entry can be. */
    lemma SettledHere(i: nat)
      requires InStep() && i in memory.owned && quiet
      ensures i < |memory.plan| && memory.plan[i].Create() && i in made && made[i] == memory.owned[i]
      ensures Settled(memory.plan[i], i, made, journal.value.owned, public, payloads, retired)
    {
    }

    /** With no created path public, the public files are the original ones. */
    lemma Restored()
      requires InStep() && quiet
      requires forall i :: i in memory.owned ==> memory.plan[i].path !in public
      ensures public == base
    {
      assert public.Keys == base.Keys;
    }

    /** `rollback`. `RolledBack` is recorded only when no entry conflicted, and then every
        retired file is the transaction's own; without an actor it returns the public files
        to what they were before apply. A foreign file captured earlier is given back to its path if
        that is free. While no actor acts no file is lost or made, whatever
        actors had put at the paths before. */
    method Rollback() returns (o: Outcome)
      requires InStep()
      modifies this`public, this`retired, this`ledger, this`quiet, this`journal, this`memory
      ensures InStep() && memory.plan == old(memory).plan && memory.owned == old(memory).owned
      ensures (quiet ==> old(quiet)) && (!foreign ==> quiet == old(quiet) && ledger == old(ledger))
      ensures journal == old(journal) || journal == Some(memory)
      ensures journal != old(journal) ==> (journal.value.phase.RolledBack? <==> journal.value.conflicts == [])
                                          && (journal.value.phase.RolledBack? || journal.value.phase.Blocked?)
      ensures o.Done? ==> journal == Some(memory) && memory.phase.RolledBack?
      ensures o.Done? ==> forall i :: i in memory.owned && i in retired ==> retired[i] == memory.owned[i]
      ensures quiet && (o.Done? || journal != old(journal)) ==> public == base
      ensures !disturbed && !foreign && old(quiet) ==> o.Done?
      ensures !disturbed && !foreign ==>
                && journal == Some(memory) && DoneFrom(old(memory), old(Here()), Here(), 0)
                && (o.Done? <==> Clear(old(memory), old(Here()), 0))
    {
      hide Accounted, Tidy, DoneFrom, Clear;
      o := Done;
      var conflicts :- VisitAll();
      if quiet {
        Restored();
      }
      memory := memory.(conflicts := conflicts, phase := if conflicts == [] then RolledBack else Blocked);
      :- Save();
      return if conflicts == [] then Done else Raised;
    }

    /** The loop of `rollback` over its entries, last one first. */
    method VisitAll() returns (o: Outcome, conflicts: seq<nat>)
      requires InStep()
      modifies this`public, this`retired, this`ledger, this`quiet
      ensures InStep() && (quiet ==> old(quiet) && conflicts == [])
      ensures !foreign ==> quiet == old(quiet) && ledger == old(ledger)
      ensures o.Done? && conflicts == [] ==> forall j :: j in memory.owned && j in retired ==> retired[j] == memory.owned[j]
      ensures quiet && o.Done? ==> forall j :: j in memory.owned ==> memory.plan[j].path !in public
      ensures !disturbed && !foreign ==>
                o.Done? && DoneFrom(memory, old(Here()), Here(), 0) && (conflicts == [] <==> Clear(memory, old(Here()), 0))
    {
      hide Accounted, Tidy, Conflicts, ReturnedAt, SameAt, DoneFrom;
      o, conflicts := Done, [];
      NothingDone(memory, Here());
      for i := |memory.plan| downto 0
        invariant InStep() && (quiet ==> old(quiet) && conflicts == [])
        invariant !foreign ==> quiet == old(quiet) && ledger == old(ledger)
        invariant conflicts == [] ==>
                    forall j :: i <= j && j in memory.owned && j in retired ==> retired[j] == memory.owned[j]
        invariant quiet ==> forall j :: i <= j && j in memory.owned ==> memory.plan[j].path !in public
        invariant !disturbed && !foreign ==>
                    DoneFrom(memory, old(Here()), Here(), i) && (conflicts == [] <==> Clear(memory, old(Here()), i))
      {
        ghost var now := Here();
        if i in memory.owned {
          var conflict :- Visit(i);
          if conflict {
            conflicts := conflicts + [memory.plan[i].path];
          }
        }
        if !disturbed && !foreign {
          Turned(old(Here()), now, i);
        }
      }
    }

    // ---- Apply ----

    /** `plan`: reads every target; a file that differs is never replaced. */
    method Plan(targets: seq<Target>) returns (plan: Option<seq<Entry>>)
      requires Inv() && journal.None?
      modifies this`public, this`ledger, this`quiet
      ensures Inv() && (quiet ==> old(quiet) && public == old(public)) && (!foreign ==> quiet == old(quiet) && ledger == old(ledger))
      ensures plan.Some? ==> |plan.value| == |targets|
                             && forall i :: 0 <= i < |targets| ==> plan.value[i].path == targets[i].path
      ensures plan.Some? && quiet ==>
                forall i :: 0 <= i < |targets| ==> Accepts(targets[i], public) && plan.value[i] == EntryFor(targets[i], public)
      ensures plan.None? && quiet ==> exists i :: 0 <= i < |targets| && !Accepts(targets[i], public)
    {
      var entries: seq<Entry> := [];
      for i := 0 to |targets|
        invariant Inv() && (quiet ==> old(quiet) && public == old(public)) && (!foreign ==> quiet == old(quiet) && ledger == old(ledger))
        invariant |entries| == i && forall j :: 0 <= j < i ==> entries[j].path == targets[j].path
        invariant quiet ==>
                    forall j :: 0 <= j < i ==> Accepts(targets[j], public) && entries[j] == EntryFor(targets[j], public)
      {
        Interfere();
        if !Accepts(targets[i], public) {
          return None;
        }
        entries := entries + [EntryFor(targets[i], public)];
      }
      return Some(entries);
    }

    /** The plan made now is exactly the reviewed one. */
    method Review(targets: seq<Target>, reviewed: seq<Entry>) returns (same: bool)
      requires Inv() && journal.None?
      requires forall i, j :: 0 <= i < j < |targets| ==> targets[i].path != targets[j].path
      modifies this`public, this`ledger, this`quiet
      ensures Inv() && (quiet ==> old(quiet) && public == old(public)) && (!foreign ==> quiet == old(quiet) && ledger == old(ledger))
      ensures same ==> DistinctPaths(reviewed) && (quiet ==> PlanHolds(reviewed, public))
      ensures quiet ==> (same <==> Reviewed(targets, reviewed, public))
    {
      hide Accounted;
      var plan := Plan(targets);
      same := plan == Some(reviewed);
      if quiet && plan.Some? && Reviewed(targets, reviewed, public) {
        assert plan.value == reviewed;
      }
    }

    /** Writes the payload of entry `i` into the private directory under a new inode. */
    method Stage(i: nat) returns (o: Outcome)
      requires InStep() && i < |memory.plan| && memory.plan[i].Create() && i !in made && i !in payloads
      modifies this`payloads, this`made, this`ledger, this`next
      ensures InStep() && old(ledger) <= ledger
      ensures (payloads == old(payloads) && made == old(made))
              || (payloads == old(payloads)[i := File(old(next), memory.plan[i].sha, MODE)]
                  && made == old(made)[i := File(old(next), memory.plan[i].sha, MODE)])
      ensures o.Done? ==> i in payloads
      ensures !disturbed ==> o.Done?
    {
      hide Accounted, Tidy, ValidReceipts, Within;
      var fate := Draw(disturbed);
      if !fate.Before() {
        var file := File(next, memory.plan[i].sha, MODE);
        if quiet {
          StageKeepsTidy(journal.value, base, made, public, payloads, retired, i, file);
        }
        StageKeepsFiles(ledger, public, payloads, retired, i, file);
        WithinGrows(journal.value.owned, made, i, file);
        WithinGrows(memory.owned, made, i, file);
        payloads, made, next := payloads[i := file], made[i := file], next + 1;
        ledger := ledger + {file};
      }
      o := fate.Ends();
    }

    /** The private directories hold exactly the receipts of the created entries before `i`. */
    ghost predicate StagedUpTo(i: nat)
      reads this
    {
      && i <= |memory.plan| && memory.owned == made == payloads
      && forall j :: j in made <==> 0 <= j < i && memory.plan[j].Create()
    }

    /** Stages entry `i` and makes its inode receipt durable, before anything is published. */
    method StageWithReceipt(i: nat) returns (o: Outcome)
      requires InStep() && StagedUpTo(i) && i < |memory.plan| && memory.plan[i].Create() && journal == Some(memory)
      modifies this`payloads, this`made, this`ledger, this`next, this`journal, this`memory
      ensures InStep() && memory == old(memory).(owned := memory.owned) && journal.value.phase == old(memory).phase
      ensures old(ledger) <= ledger
      ensures o.Done? ==> StagedUpTo(i + 1) && journal == Some(memory)
      ensures !disturbed ==> o.Done?
    {
      hide Accounted, Tidy;
      o := Done;
      :- Stage(i);
      memory := memory.(owned := memory.owned[i := payloads[i]]);
      o := Save();
    }

    /** First loop of `apply`: stage every created entry and save its receipt. */
    method Prepare() returns (o: Outcome)
      requires InStep() && StagedUpTo(0) && journal == Some(memory)
      modifies this`public, this`payloads, this`made, this`ledger, this`next, this`quiet, this`journal, this`memory
      ensures InStep() && (quiet ==> old(quiet) && public == old(public)) && (!foreign ==> quiet == old(quiet) && old(ledger) <= ledger)
      ensures memory == old(memory).(owned := memory.owned) && journal.value.phase == old(memory).phase
      ensures o.Done? ==> StagedUpTo(|memory.plan|) && journal == Some(memory)
      ensures !disturbed && !foreign ==>
                (o.Done? <==> forall i :: 0 <= i < |memory.plan| ==> StillAt(memory.plan[i], old(public)))
      ensures !foreign ==> public == old(public)
      ensures !disturbed && quiet && PlanHolds(old(memory).plan, old(public)) ==> o.Done?
    {
      hide Accounted, Tidy, ValidReceipts, Within;
      o := Done;
      for i := 0 to |memory.plan|
        invariant InStep() && StagedUpTo(i) && journal == Some(memory) && memory == old(memory).(owned := memory.owned)
        invariant (quiet ==> old(quiet) && public == old(public)) && (!foreign ==> quiet == old(quiet) && old(ledger) <= ledger)
        invariant !foreign ==> public == old(public) && forall j :: 0 <= j < i ==> StillAt(memory.plan[j], public)
      {
        Interfere();
        var e := memory.plan[i];
        if !StillAt(e, public) {
          return Raised;
        }
        if e.Create() {
          :- StageWithReceipt(i);
        } else {
          :- Observe(disturbed);
        }
      }
      return Done;
    }

    /** Publishes entry `i` and looks again. */
    method PublishEntry(i: nat) returns (o: Outcome)
      requires InStep() && journal == Some(memory) && i in memory.owned && i in payloads && payloads[i] == memory.owned[i]
      requires memory.phase.Installing?
      modifies this`public, this`payloads, this`ledger, this`quiet
      ensures InStep() && (quiet ==> old(quiet)) && (!foreign ==> quiet == old(quiet) && ledger == old(ledger))
      ensures payloads == old(payloads) || payloads == old(payloads) - {i}
      ensures o.Done? ==> payloads == old(payloads) - {i}
      ensures o.Done? ==> memory.plan[i].path in public && public[memory.plan[i].path] == memory.owned[i]
      ensures !disturbed && !foreign ==>
                && (o.Done? <==> memory.plan[i].path !in old(public) && doom != Some(Publishing(i)))
                && public == if o.Done? then old(public)[memory.plan[i].path := memory.owned[i]] else old(public)
      ensures !disturbed && quiet ==> o == if doom == Some(Publishing(i)) then Raised else Done
    {
      hide Accounted, Tidy;
      Interfere();
      if quiet {
        SettledHere(i);
      }
      :- Risk(Publishing(i));
      :- Publish(i);
      Interfere();
      return if memory.plan[i].path in public && public[memory.plan[i].path] == memory.owned[i] then Done else Raised;
    }

    /** Second loop of `apply`: publish each staged inode by an exclusive rename. */
    method PublishAll() returns (o: Outcome)
      requires InStep() && StagedUpTo(|memory.plan|) && journal == Some(memory) && retired == map[] && memory.phase.Installing?
      modifies this`public, this`payloads, this`ledger, this`quiet
      ensures InStep() && (quiet ==> old(quiet)) && (!foreign ==> quiet == old(quiet) && ledger == old(ledger))
      ensures o.Done? ==> payloads == map[]
      ensures !disturbed && quiet ==>
                o == if doom.Some? && doom.value.Publishing? && doom.value.Met(memory.plan) then Raised else Done
    {
      hide Accounted, Tidy, ValidReceipts, Within;
      o := Done;
      for i := 0 to |memory.plan|
        invariant InStep() && (quiet ==> old(quiet)) && (!foreign ==> quiet == old(quiet) && ledger == old(ledger))
        invariant forall j :: j in payloads <==> j in memory.owned && i <= j
        invariant forall j :: j in payloads ==> payloads[j] == memory.owned[j]
        invariant !disturbed && doom.Some? && doom.value.Publishing? && doom.value.Met(memory.plan) && quiet ==> i <= doom.value.entry
      {
        if memory.plan[i].Create() {
          :- PublishEntry(i);
        }
      }
    }

    /** Third loop of `apply`: every created path holds its own inode, every preserved path
        what was there before. */
    method VerifyAll() returns (o: Outcome)
      requires InStep() && StagedKeys() && payloads == map[] && retired == map[]
      modifies this`public, this`ledger, this`quiet
      ensures InStep() && (quiet ==> old(quiet)) && (!foreign ==> quiet == old(quiet) && ledger == old(ledger))
      ensures quiet && o.Done? ==> Installed(memory.plan, base, public)
      ensures !disturbed && quiet ==> o == if doom == Some(AfterPublication) then Raised else Done
      ensures !disturbed && !foreign ==>
                && public == old(public)
                && (o.Done? <==> doom != Some(AfterPublication) && forall j :: 0 <= j < |memory.plan| ==> Verified(memory.plan[j], j))
    {
      hide Accounted, Tidy, ValidReceipts, Within;
      for i := 0 to |memory.plan|
        invariant InStep() && (quiet ==> old(quiet)) && (!foreign ==> quiet == old(quiet) && ledger == old(ledger))
        invariant quiet || !foreign ==> public == old(public)
        invariant quiet || !foreign ==> forall j :: 0 <= j < i ==> Verified(memory.plan[j], j)
      {
        Interfere();
        if quiet {
          VerifiedHere(i);
        }
        var e := memory.plan[i];
        if e.path !in public
           || (if e.Create() then public[e.path] != memory.owned[i] else e.before != Some(public[e.path].Stamp())) {
          return Raised;
        }
      }
      if quiet {
        InstalledHere();
      }
      o := Risk(AfterPublication);
    }

    ghost predicate StagedKeys()
      reads this
    {
      forall j :: j in memory.owned <==> 0 <= j < |memory.plan| && memory.plan[j].Create()
    }

    ghost predicate Verified(e: Entry, i: nat)
      reads this
    {
      e.path in public && (if e.Create() then i in memory.owned && public[e.path] == memory.owned[i]
                           else e.before == Some(public[e.path].Stamp()))
    }

    lemma VerifiedHere(i: nat)
      requires InStep() && StagedKeys() && payloads == map[] && retired == map[] && quiet && i < |memory.plan|
      ensures Verified(memory.plan[i], i)
    {
      if memory.plan[i].Create() {
        SettledHere(i);
      }
    }

    lemma InstalledHere()
      requires InStep() && quiet
      requires forall j :: 0 <= j < |memory.plan| ==> Verified(memory.plan[j], j)
      ensures Installed(memory.plan, base, public)
    {
      forall i | 0 <= i < |memory.plan|
        ensures memory.plan[i].path in public && public[memory.plan[i].path].sha == memory.plan[i].sha
      {
        assert Verified(memory.plan[i], i);
      }
    }

    /** The `try` of `apply`. */
    method Forward() returns (o: Outcome)
      requires InStep() && StagedUpTo(0) && retired == map[] && journal == Some(memory) && memory.phase.Preparing?
      modifies this`public, this`payloads, this`made, this`ledger, this`next, this`quiet, this`journal, this`memory
      ensures InStep() && memory.plan == old(memory).plan && (quiet ==> old(quiet)) && (!foreign ==> quiet == old(quiet) && old(ledger) <= ledger)
      ensures !journal.value.phase.RolledBack? && (o.Done? ==> journal == Some(memory) && memory.phase.Completed?)
      ensures quiet && o.Done? ==> Installed(memory.plan, base, public)
      ensures !disturbed && quiet && PlanHolds(old(memory).plan, old(public)) ==>
                o == if Doomed(old(memory).plan) then Raised else Done
    {
      hide Accounted, Tidy, Within, Installed, PlanHolds;
      o := Done;
      :- Prepare();
      :- Risk(BeforePublication);
      o := Install();
    }

    /** Publishes what is staged, verifies it and commits. */
    method Install() returns (o: Outcome)
      requires InStep() && StagedUpTo(|memory.plan|) && journal == Some(memory) && retired == map[]
      modifies this`public, this`payloads, this`ledger, this`quiet, this`journal, this`memory
      ensures InStep() && memory.plan == old(memory).plan && (quiet ==> old(quiet)) && (!foreign ==> quiet == old(quiet) && ledger == old(ledger))
      ensures journal == old(journal) || !journal.value.phase.RolledBack?
      ensures o.Done? ==> journal == Some(memory) && memory.phase.Completed?
      ensures quiet && o.Done? ==> Installed(memory.plan, base, public)
      ensures !disturbed && quiet ==>
                o == if Doomed(memory.plan) && !doom.value.BeforePublication? then Raised else Done
    {
      hide Accounted, Tidy, Within, Installed, ValidReceipts, DistinctPaths;
      o := Done;
      :- Mark(Installing);
      :- PublishAll();
      :- VerifyAll();
      o := Mark(Completed);
    }

    /** `document['phase'] = …; self.save(document)`. */
    method Mark(phase: Phase) returns (o: Outcome)
      requires InStep()
      modifies this`journal, this`memory
      ensures InStep() && memory == old(memory).(phase := phase)
      ensures journal == Some(memory) || journal == old(journal)
      ensures o.Done? ==> journal == Some(memory)
      ensures !disturbed ==> o.Done?
    {
      hide Accounted, Tidy, Within, DistinctPaths;
      memory := memory.(phase := phase);
      o := Save();
    }

    /** The first journal write of a transaction. */
    method Begin(plan: seq<Entry>) returns (o: Outcome)
      requires Inv() && journal.None? && made == map[] && DistinctPaths(plan) && directories
      requires quiet ==> public == base && PlanHolds(plan, base)
      modifies this`journal, this`memory
      ensures Inv() && memory == Document(plan, Preparing, map[], [])
      ensures journal.None? || (journal == Some(memory) && InStep())
      ensures o.Done? ==> journal == Some(memory)
      ensures !disturbed ==> o.Done?
    {
      memory := Document(plan, Preparing, map[], []);
      var fate := Draw(disturbed);
      if !fate.Before() {
        journal := Some(memory);
      }
      o := fate.Ends();
    }

    /** `apply`: installs the reviewed plan, or rolls its own publications back. No file that
        exists is lost, whoever put it there, unless the actor takes it during this call. Alone, with
        one step failing, it ends rolled back with the public files as they were. */
    method Apply(targets: seq<Target>, reviewed: seq<Entry>) returns (o: Outcome)
      requires Inv()
      requires forall i, j :: 0 <= i < j < |targets| ==> targets[i].path != targets[j].path
      modifies this`public, this`payloads, this`retired, this`made, this`ledger, this`next, this`quiet, this`base,
               this`journal, this`memory, this`directories
      ensures Inv()
      ensures old(journal).Some? ==> o.Raised? && journal == old(journal) && public == old(public) && ledger == old(ledger)
      ensures o.Done? ==> journal.Some? && journal.value.phase.Completed? && journal.value.plan == reviewed
      ensures !foreign && old(journal).None? ==>
                if journal.Some? then quiet && base == old(public) else public == old(public)
      ensures !foreign && old(journal).Some? ==> quiet == old(quiet) && base == old(base)
      ensures !foreign ==> old(ledger) <= ledger
      ensures !foreign && o.Done? ==> Installed(reviewed, old(public), public)
      ensures !foreign && old(journal).None? && journal.Some? && journal.value.phase.RolledBack? ==> public == old(public)
      ensures !disturbed && !foreign ==>
                (o.Done? <==>
                 old(journal).None? && !old(directories) && Reviewed(targets, reviewed, old(public)) && !Doomed(reviewed))
      ensures !disturbed && !foreign && old(journal).None? && !old(directories) && Reviewed(targets, reviewed, old(public))
              && Doomed(reviewed) ==>
                o.Raised? && journal.Some? && journal.value.phase.RolledBack? && public == old(public)
    {
      hide Accounted, Tidy, Within, Installed, PlanHolds, Reviewed, DistinctPaths, ValidReceipts;
      if journal.Some? {
        return Raised;
      }
      base, made, quiet := public, map[], true;
      var same := Review(targets, reviewed);
      if !same || directories {
        return Raised;
      }
      directories := true;
      :- Observe(disturbed);
      o := Perform(reviewed);
    }

    /** `apply` from its first journal write on. */
    method Perform(reviewed: seq<Entry>) returns (o: Outcome)
      requires Inv() && journal.None? && made == map[] && DistinctPaths(reviewed) && directories
      requires quiet ==> public == base && PlanHolds(reviewed, base)
      modifies this`public, this`payloads, this`retired, this`made, this`ledger, this`next, this`quiet, this`journal, this`memory
      ensures Inv() && (!foreign ==> quiet == old(quiet) && old(ledger) <= ledger)
      ensures o.Done? ==> journal.Some? && journal.value.phase.Completed? && journal.value.plan == reviewed
      ensures quiet && (journal.None? || journal.value.phase.RolledBack?) ==> public == base
      ensures quiet && o.Done? ==> Installed(reviewed, base, public)
      ensures !disturbed && !foreign && old(quiet) ==>
                if Doomed(reviewed) then o.Raised? && journal.Some? && journal.value.phase.RolledBack? else o.Done?
    {
      hide Accounted, Tidy, Within, Installed, PlanHolds, DistinctPaths, ValidReceipts;
      o := Done;
      :- Begin(reviewed);
      o := Forward();
      if o.Raised? {
        var rollback := Rollback();
        o := if rollback.Died? then Died else Raised;
      }
    }

    /** `--recover` or `--rollback`: rolls the journaled transaction back. Alone and undisturbed it
        gives every captured foreign file back to its path if that is free, and succeeds if and only
        if nothing foreign was in the way. */
    method Recover() returns (o: Outcome)
      requires Inv()
      modifies this`public, this`retired, this`ledger, this`quiet, this`journal, this`memory
      ensures Inv() && (journal.None? <==> old(journal).None?) && (!foreign ==> quiet == old(quiet) && ledger == old(ledger))
      ensures old(journal).None? ==> public == old(public)
      ensures o.Done? ==> journal.Some? && journal.value.phase.RolledBack?
                          && forall i :: i in journal.value.owned && i in retired ==> retired[i] == journal.value.owned[i]
      ensures o.Done? && quiet ==> public == base
      ensures old(journal).Some? && !disturbed && !foreign && old(quiet) ==> o.Done? && public == base
      ensures old(journal).Some? && !disturbed && !foreign ==>
                && DoneFrom(old(journal).value, old(Here()), Here(), 0)
                && (o.Done? <==> Clear(old(journal).value, old(Here()), 0))
    {
      hide Accounted, Tidy, DoneFrom, Clear;
      if journal.None? {
        return Raised;
      }
      memory := journal.value;
      o := Rollback();
    }

    // ---- Whole histories ----

    /** Any history of applies and recoveries, each failing or dying anywhere. With an actor,
        every file is still somewhere unless the actor took it away (`Inv`). Without one, the
        public files are the original ones whenever nothing was journaled, and otherwise one
        undisturbed recovery makes them so. */
    method AnyHistory(requests: seq<Request>)
      requires Inv() && journal.None?
      requires forall r :: r in requests && r.Install? ==>
                 forall i, j :: 0 <= i < j < |r.targets| ==> r.targets[i].path != r.targets[j].path
      modifies this
      ensures Inv() && foreign == old(foreign)
      ensures !foreign ==> public == old(public)
      ensures !foreign && journal.Some? ==> journal.value.phase.RolledBack?
    {
      hide Accounted, Tidy, ValidReceipts, DistinctPaths, Within, Reviewed, DoneFrom, Clear, Installed;
      for n := 0 to |requests|
        invariant Inv() && foreign == old(foreign)
        invariant !foreign ==> if journal.Some? then quiet && base == old(public) else public == old(public)
      {
        disturbed, doom := *, *;
        match requests[n] {
          case Install(targets, reviewed) =>
            assert requests[n] in requests;
            var o := Apply(targets, reviewed);
          case RollBack =>
            var o := Recover();
        }
      }
      disturbed := false;
      var o := Recover();
    }
  }

  datatype Request = Install(targets: seq<Target>, reviewed: seq<Entry>) | RollBack
}
