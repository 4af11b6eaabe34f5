/** The Linux same-profile updater (scripts/linux_current_update.py): `prepare`, `apply`,
    `rollback` and `reconcile` over one live application path and any number of
    separately journaled update transactions. */
module LinuxUpdate {
  import opened Faults

  /** An application directory: its inode identity and the binary in it. */
  datatype Tree = Tree(inode: nat, binary: nat)

  datatype Phase =
    | Preparing | Prepared | StopRequested | ExchangeRequested | StartRequested | Committed
    | RollbackStopRequested | RollbackExchangeRequested | RollbackStartRequested | RolledBack
    | RecoveryRequired
  {
    predicate Terminal() { Committed? || RolledBack? }
  }

  /** The journal a plan builds on, and the state it was in. */
  datatype Predecessor = Predecessor(id: nat, stamp: nat)

  /** The `linux_update` record. The candidate is known once the plan is sealed; `verified` says that
      its owner was seen, `failed` that a failure was noted. */
  datatype Update = Update(
    phase: Phase, oldApp: Tree, candidate: Option<Tree>, predecessor: Option<Predecessor>, verified: bool, failed: bool)

  /** A transaction directory: its journaled record, its staged and its displaced tree, the state
      of its journal file (`stamp`), and whether an interrupted write left its scratch file. */
  datatype Transaction = Transaction(
    journal: Option<Update>, stage: Option<Tree>, previous: Option<Tree>, stamp: nat, leftover: bool)
  {
    predicate Pending(id: nat) {
      if journal.None? then id != ORIGINAL else !journal.value.phase.Terminal()
    }

    predicate Committed() { journal.Some? && journal.value.phase.Committed? }

    predicate Sealed() { journal.Some? && journal.value.candidate.Some? }

    predicate Blank() { journal.None? && stage.None? && previous.None? }

    /** The first record of a new transaction is written in place; every other write goes
        through a scratch file that must not exist yet. */
    predicate Writable(id: nat) { !leftover || (journal.None? && id != ORIGINAL) }
  }

  const NEW_TRANSACTION := Transaction(None, None, None, 0, false)

  /** The original installation journal may hold one update of its own. */
  const ORIGINAL: nat := 0

  /** The most update directories the inventory accepts. */
  const MAX_UPDATES := 256

  /** Exactly one of the two private places holds `tree`, the other is empty. */
  predicate Aside(t: Transaction, tree: Tree) {
    (t.stage == Some(tree) && t.previous.None?) || (t.previous == Some(tree) && t.stage.None?)
  }

  /** Where a transaction keeps the tree that is not live. */
  predicate Placed(t: Transaction, live: Tree) {
    t.journal.Some? ==>
      var u := t.journal.value;
      && (u.phase.Preparing? <==> u.candidate.None?)
      && match u.candidate
         case None => t.previous.None?
         case Some(c) =>
           if u.phase.Committed? then t.previous == Some(u.oldApp) && t.stage.None?
           else if u.phase.RolledBack? || live != c then Aside(t, c)
           else Aside(t, u.oldApp)
  }

  /** Inodes are never reused, so a candidate is newer than what it replaces. */
  predicate Ordered(u: Update, first: Tree, next: nat) {
    && first.inode <= u.oldApp.inode < next
    && (u.candidate.Some? ==> u.oldApp.inode < u.candidate.value.inode < next)
  }

  predicate BuildsOnOther(id: nat, u: Update) { u.predecessor.Some? ==> u.predecessor.value.id != id }

  type Txns = map<nat, Transaction>

  /** The part of `check` that other updates decide: the predecessor's journal is untouched. */
  predicate PredecessorHolds(txns: Txns, u: Update) {
    u.predecessor.Some? ==> u.predecessor.value.id in txns && txns[u.predecessor.value.id].stamp == u.predecessor.value.stamp
  }

  /** Only transaction `id` differs. */
  predicate OnlyChanges(a: Txns, b: Txns, id: nat) {
    id in a && id in b && a - {id} == b - {id}
  }

  /** Nothing but the journal of `id` differs. */
  predicate SameTrees(a: Txns, b: Txns, id: nat) {
    OnlyChanges(a, b, id) && a[id].stage == b[id].stage && a[id].previous == b[id].previous
  }

  lemma PredecessorStays(a: Txns, b: Txns, id: nat, u: Update)
    requires OnlyChanges(a, b, id) && BuildsOnOther(id, u) && PredecessorHolds(a, u)
    ensures PredecessorHolds(b, u)
  {
    if u.predecessor.Some? {
      var k := u.predecessor.value.id;
      assert k in a - {id} && (a - {id})[k] == a[k];
      assert k in b - {id} && (b - {id})[k] == b[k];
    }
  }

  lemma PredecessorKept(a: Txns, b: Txns, id: nat, k: nat)
    requires a - {id} == b - {id} && k in a && k != id
    ensures k in b && b[k] == a[k]
  {
    assert k in a - {id} && (a - {id})[k] == a[k];
    assert (b - {id})[k] == b[k];
  }

  lemma UpdateOnly(a: Txns, id: nat, t: Transaction)
    requires id in a
    ensures OnlyChanges(a, a[id := t], id)
  {
    assert a[id := t] - {id} == a - {id};
  }

  /** `guard_other_transactions`, taken with the lock: the history is within its bound and every
      other transaction is finished. */
  predicate Unblocked(txns: Txns, id: nat) {
    |txns.Keys - {ORIGINAL}| <= MAX_UPDATES && forall other :: other in txns && other != id ==> !txns[other].Pending(other)
  }

  /** What the journals mean: the committed transactions in order, the trees they link, and
      the one transaction that is not finished. */
  datatype Books = Books(chain: seq<nat>, nodes: seq<Tree>, pending: Option<nat>) {
    ghost predicate Formed() { |nodes| == |chain| + 1 }

    ghost function Head(): Tree
      requires Formed()
    {
      nodes[|chain|]
    }
  }

  predicate Link(txns: Txns, id: nat, before: Tree, after: Tree) {
    id in txns && txns[id].Committed()
    && txns[id].journal.value.oldApp == before && txns[id].journal.value.candidate == Some(after)
  }

  /** The committed transactions, in the order of the chain, link its trees from the first
      app on, and no other transaction is committed. */
  ghost predicate Chained(first: Tree, txns: Txns, b: Books) {
    && b.Formed() && b.nodes[0] == first
    && (forall i, j :: 0 <= i < j < |b.nodes| ==> b.nodes[i].inode < b.nodes[j].inode)
    && (forall i, j :: 0 <= i < j < |b.chain| ==> b.chain[i] != b.chain[j])
    && (forall k :: 0 <= k < |b.chain| ==> Link(txns, b.chain[k], b.nodes[k], b.nodes[k + 1]))
    && (forall id :: id in txns && txns[id].Committed() ==> id in b.chain)
  }

  /** Every record is ordered, every tree is where its record says, candidates are distinct. */
  ghost predicate Recorded(first: Tree, txns: Txns, live: Tree, next: nat) {
    && first.inode < next
    && (forall id :: id in txns && txns[id].journal.Some? ==> Ordered(txns[id].journal.value, first, next))
    && (forall id :: id in txns ==> Placed(txns[id], live))
    && (forall id :: id in txns && txns[id].journal.Some? ==> BuildsOnOther(id, txns[id].journal.value))
    && (forall i, j :: i in txns && j in txns && i != j && txns[i].Sealed() && txns[j].Sealed() ==>
          txns[i].journal.value.candidate != txns[j].journal.value.candidate)
  }

  /** At most one transaction is pending, and the live app is the end of the chain or the
      pending candidate. */
  ghost predicate Explained(txns: Txns, live: Tree, b: Books)
    requires b.Formed()
  {
    && (forall id :: id in txns ==> (txns[id].Pending(id) <==> b.pending == Some(id)))
    && (b.pending.Some? ==> b.pending.value in txns)
    && if b.pending.None? || txns[b.pending.value].journal.None? then live == b.Head()
       else
         var u := txns[b.pending.value].journal.value;
         u.oldApp == b.Head() && (live == b.Head() || Some(live) == u.candidate)
  }

  ghost predicate Sound(first: Tree, txns: Txns, live: Tree, next: nat, b: Books) {
    Chained(first, txns, b) && Recorded(first, txns, live, next) && Explained(txns, live, b)
  }

  /** The chain once `id` is taken out of it. */
  ghost function Unlinked(txns: Txns, b: Books, id: nat): (b': Books)
    requires b.Formed()
    ensures b'.Formed()
  {
    if id in txns && txns[id].Committed() && |b.chain| > 0
    then b.(chain := b.chain[..|b.chain| - 1], nodes := b.nodes[..|b.chain|])
    else b
  }

  ghost function Rebooked(txns: Txns, b: Books, live: Tree, id: nat, u: Update): Books
    requires b.Formed()
  {
    var base := Unlinked(txns, b, id);
    if u.phase.Committed? then Books(base.chain + [id], base.nodes + [live], None)
    else base.(pending := if u.phase.RolledBack? then None else Some(id))
  }

  function Written(txns: Txns, id: nat, u: Update, stamp: nat): Txns
    requires id in txns
  {
    txns[id := txns[id].(journal := Some(u), stamp := stamp)]
  }

  /** The write was interrupted between creating its scratch file and replacing the journal. */
  function Interrupted(txns: Txns, id: nat): Txns
    requires id in txns
  {
    txns[id := txns[id].(leftover := true)]
  }

  /** Transaction `id` may record `u`: only the newest commit is reopened, nothing else is
      pending, the plan is the same, and the trees are where `u` says. */
  ghost predicate MayRecord(first: Tree, txns: Txns, live: Tree, next: nat, b: Books, id: nat, u: Update) {
    && b.Formed() && id in txns
    && (txns[id].Committed() ==> |b.chain| > 0 && b.chain[|b.chain| - 1] == id)
    && (b.pending.None? || b.pending.value == id)
    && (txns[id].Sealed() ==> txns[id].journal.value.candidate == u.candidate)
    && Ordered(u, first, next) && BuildsOnOther(id, u)
    && Placed(txns[id].(journal := Some(u)), live)
    && Unlinked(txns, b, id).Head() == u.oldApp
    && (u.candidate.Some? ==> forall other :: other in txns && other != id && txns[other].Sealed() ==>
          txns[other].journal.value.candidate != u.candidate)
    && (u.phase.Committed? ==> Some(live) == u.candidate)
    && (u.phase.RolledBack? ==> live == u.oldApp)
    && (live == u.oldApp || Some(live) == u.candidate)
  }

  /** Writing a record moves the end of the chain by at most one link, in either direction. */
  lemma RecordKeepsChain(first: Tree, txns: Txns, live: Tree, next: nat, b: Books, id: nat, u: Update, stamp: nat)
    requires Chained(first, txns, b) && MayRecord(first, txns, live, next, b, id, u)
    ensures Chained(first, Written(txns, id, u, stamp), Rebooked(txns, b, live, id, u))
  {
    var base, txns', b' := Unlinked(txns, b, id), Written(txns, id, u, stamp), Rebooked(txns, b, live, id, u);
    forall k | 0 <= k < |base.chain|
      ensures base.chain[k] != id
    {
      assert Link(txns, b.chain[k], b.nodes[k], b.nodes[k + 1]);
    }
    forall k | 0 <= k < |b'.chain|
      ensures Link(txns', b'.chain[k], b'.nodes[k], b'.nodes[k + 1])
    {
      if k < |base.chain| {
        assert Link(txns, b.chain[k], b.nodes[k], b.nodes[k + 1]);
      }
    }
    forall other | other in txns' && txns'[other].Committed()
      ensures other in b'.chain
    {
      if other != id {
        var k :| 0 <= k < |b.chain| && b.chain[k] == other;
        assert b'.chain[k] == other;
      } else {
        assert b'.chain[|base.chain|] == other;
      }
    }
  }

  /** The record of one transaction never disturbs where the trees of the others are. */
  lemma RecordKeepsRest(first: Tree, txns: Txns, live: Tree, next: nat, b: Books, id: nat, u: Update, stamp: nat)
    requires Sound(first, txns, live, next, b) && MayRecord(first, txns, live, next, b, id, u)
    ensures Recorded(first, Written(txns, id, u, stamp), live, next)
  {
  }

  /** After the record at most one transaction is unfinished, and the live app is explained. */
  lemma RecordKeepsPending(first: Tree, txns: Txns, live: Tree, next: nat, b: Books, id: nat, u: Update, stamp: nat)
    requires Sound(first, txns, live, next, b) && MayRecord(first, txns, live, next, b, id, u)
    ensures Rebooked(txns, b, live, id, u).Formed()
    ensures Explained(Written(txns, id, u, stamp), live, Rebooked(txns, b, live, id, u))
  {
  }

  /** `prepare` counts the directories before it makes its own, so it opens one more than the bound
      allows, and from then on every request is refused. */
  lemma LastDirectoryBlocks(txns: Txns, id: nat, t: Transaction, request: nat)
    requires id !in txns && id != ORIGINAL && |txns.Keys - {ORIGINAL}| == MAX_UPDATES
    ensures !Unblocked(txns[id := t], request)
  {
    assert txns[id := t].Keys - {ORIGINAL} == (txns.Keys - {ORIGINAL}) + {id};
  }

  /** Unblocked means that nothing else is unfinished. */
  lemma NothingElsePending(first: Tree, txns: Txns, live: Tree, next: nat, b: Books, id: nat)
    requires Sound(first, txns, live, next, b) && Unblocked(txns, id)
    ensures b.pending.None? || b.pending.value == id
    ensures id !in txns || (id == ORIGINAL && txns[id].journal.None?) ==> b.pending.None?
  {
  }

  lemma RecordKeeps(first: Tree, txns: Txns, live: Tree, next: nat, b: Books, id: nat, u: Update, stamp: nat)
    requires Sound(first, txns, live, next, b) && MayRecord(first, txns, live, next, b, id, u)
    ensures Sound(first, Written(txns, id, u, stamp), live, next, Rebooked(txns, b, live, id, u))
  {
    RecordKeepsChain(first, txns, live, next, b, id, u, stamp);
    RecordKeepsRest(first, txns, live, next, b, id, u, stamp);
    RecordKeepsPending(first, txns, live, next, b, id, u, stamp);
  }

  /** A scratch file left behind changes no record and no tree. */
  lemma InterruptionKeeps(first: Tree, txns: Txns, live: Tree, next: nat, b: Books, id: nat)
    requires Sound(first, txns, live, next, b) && id in txns
    ensures Sound(first, Interrupted(txns, id), live, next, b)
  {
    var txns' := Interrupted(txns, id);
    forall k | 0 <= k < |b.chain|
      ensures Link(txns', b.chain[k], b.nodes[k], b.nodes[k + 1])
    {
      assert Link(txns, b.chain[k], b.nodes[k], b.nodes[k + 1]);
    }
  }

  lemma NewerThanOld(first: Tree, txns: Txns, live: Tree, next: nat, b: Books, id: nat)
    requires Sound(first, txns, live, next, b) && id in txns && txns[id].Sealed()
    ensures txns[id].journal.value.candidate != Some(txns[id].journal.value.oldApp)
    ensures BuildsOnOther(id, txns[id].journal.value)
  {
  }

  /** Only the newest commit can be reopened: a finished or interrupted transaction whose old
      or candidate tree is live may record progress, and is the end of the chain if it is in
      the chain at all. */
  lemma Reopens(first: Tree, txns: Txns, live: Tree, next: nat, b: Books, id: nat)
    requires Sound(first, txns, live, next, b)
    requires id in txns && txns[id].Sealed() && (b.pending.None? || b.pending.value == id)
    requires live == txns[id].journal.value.oldApp || Some(live) == txns[id].journal.value.candidate
    ensures MayRecord(first, txns, live, next, b, id, txns[id].journal.value.(phase := RecoveryRequired))
    ensures txns[id].Committed() ==> |b.chain| > 0 && b.chain[|b.chain| - 1] == id
    ensures txns[id].journal.value.phase.RolledBack? ==> live == txns[id].journal.value.oldApp
  {
    var u := txns[id].journal.value;
    if u.phase.Committed? {
      var k :| 0 <= k < |b.chain| && b.chain[k] == id;
      assert Link(txns, b.chain[k], b.nodes[k], b.nodes[k + 1]);
    } else if u.phase.RolledBack? {
      if |b.chain| > 0 {
        var last := |b.chain| - 1;
        assert Link(txns, b.chain[last], b.nodes[last], b.nodes[last + 1]);
      }
    }
  }

  /** While a candidate is live, the tree it replaced is in exactly one of the transaction's
      two private places. */
  lemma SingleLocation(first: Tree, txns: Txns, live: Tree, next: nat, b: Books, id: nat)
    requires Sound(first, txns, live, next, b)
    requires id in txns && txns[id].Sealed() && Some(live) == txns[id].journal.value.candidate
    ensures Aside(txns[id], txns[id].journal.value.oldApp)
  {
    if |b.chain| > 0 {
      var last := |b.chain| - 1;
      assert Link(txns, b.chain[last], b.nodes[last], b.nodes[last + 1]);
    }
  }

  /** Exchanging the live tree of the pending transaction with the one it keeps aside, or
      moving that one between its two places, keeps everything explained. */
  lemma MoveKeeps(first: Tree, txns: Txns, live: Tree, next: nat, b: Books, id: nat, moved: Transaction, live': Tree)
    requires Sound(first, txns, live, next, b) && b.pending == Some(id) && txns[id].Sealed()
    requires moved.journal == txns[id].journal && Placed(moved, live')
    requires live' == txns[id].journal.value.oldApp || Some(live') == txns[id].journal.value.candidate
    ensures Sound(first, txns[id := moved], live', next, b)
  {
  }

  /** A new, still empty transaction directory is the one unfinished transaction. */
  lemma OpenKeeps(first: Tree, txns: Txns, live: Tree, next: nat, b: Books, id: nat)
    requires Sound(first, txns, live, next, b) && b.pending.None? && id !in txns && id != ORIGINAL
    ensures Sound(first, txns[id := NEW_TRANSACTION], live, next, b.(pending := Some(id)))
  {
    var txns' := txns[id := NEW_TRANSACTION];
    forall k | 0 <= k < |b.chain|
      ensures Link(txns', b.chain[k], b.nodes[k], b.nodes[k + 1])
    {
      assert Link(txns, b.chain[k], b.nodes[k], b.nodes[k + 1]);
    }
  }

  /** The intent of a new transaction on the live app may be recorded. */
  lemma IntentRecordable(first: Tree, txns: Txns, live: Tree, next: nat, b: Books, id: nat, u: Update)
    requires Sound(first, txns, live, next, b) && (b.pending.None? || b.pending.value == id)
    requires id in txns && txns[id].Blank()
    requires u.phase.Preparing? && u.oldApp == live && u.candidate.None? && BuildsOnOther(id, u)
    ensures MayRecord(first, txns, live, next, b, id, u)
  {
    if |b.chain| > 0 {
      var last := |b.chain| - 1;
      assert Link(txns, b.chain[last], b.nodes[last], b.nodes[last + 1]);
    }
  }

  /** Staging a tree with a new inode keeps everything explained. */
  lemma StageKeeps(first: Tree, txns: Txns, live: Tree, next: nat, b: Books, id: nat, tree: Tree)
    requires Sound(first, txns, live, next, b) && b.pending == Some(id)
    requires txns[id].journal.Some? && txns[id].journal.value.candidate.None?
    ensures Sound(first, txns[id := txns[id].(stage := Some(tree))], live, next + 1, b)
  {
    var txns' := txns[id := txns[id].(stage := Some(tree))];
    forall k | 0 <= k < |b.chain|
      ensures Link(txns', b.chain[k], b.nodes[k], b.nodes[k + 1])
    {
      assert Link(txns, b.chain[k], b.nodes[k], b.nodes[k + 1]);
    }
  }

  /** A plan naming the newly staged tree may be sealed: no other transaction names it. */
  lemma SealRecordable(first: Tree, txns: Txns, live: Tree, next: nat, b: Books, id: nat, tree: Tree)
    requires Sound(first, txns, live, next, b) && b.pending == Some(id) && tree.inode == next
    requires txns[id].journal.Some? && txns[id].journal.value.candidate.None?
    ensures MayRecord(first, txns[id := txns[id].(stage := Some(tree))], live, next + 1, b, id,
                      txns[id].journal.value.(phase := Prepared, candidate := Some(tree)))
  {
  }

  /** The committed transactions that `old_release` accepts for the live inode. */
  function Matches(txns: Txns, live: Tree, binary: nat): set<nat> {
    set k | k in txns && txns[k].Committed() && txns[k].journal.value.candidate == Some(live) && live.binary == binary
  }

  /** A unique match is the end of the chain: the newest commit, or the first installation. */
  lemma PredecessorIsTip(first: Tree, txns: Txns, live: Tree, next: nat, b: Books, binary: nat)
    requires Sound(first, txns, live, next, b) && b.pending.None? && live.binary == binary
    ensures b.chain == [] ==> Matches(txns, live, binary) == {} && first.binary == binary
    ensures b.chain != [] ==> b.chain[|b.chain| - 1] in Matches(txns, live, binary)
    ensures |Matches(txns, live, binary)| <= 1
  {
    var matches := Matches(txns, live, binary);
    if b.chain == [] {
      assert matches == {};
    } else {
      var last := |b.chain| - 1;
      assert Link(txns, b.chain[last], b.nodes[last], b.nodes[last + 1]);
      assert matches == {b.chain[last]};
    }
  }

  /** Every update journaled as verified had its candidate's owner observed running. */
  ghost predicate Witnessed(txns: Txns, observed: set<nat>) {
    forall id :: id in txns && txns[id].journal.Some? && txns[id].journal.value.verified ==> id in observed
  }

  lemma WitnessedStays(txns: Txns, observed: set<nat>, id: nat, t: Transaction)
    requires Witnessed(txns, observed) && (t.journal.Some? && t.journal.value.verified ==> id in observed)
    ensures Witnessed(txns[id := t], observed)
  {
  }

  lemma WitnessedGrows(txns: Txns, observed: set<nat>, id: nat)
    requires Witnessed(txns, observed)
    ensures Witnessed(txns, observed + {id})
  {
  }

  datatype Slot = Stage | Previous

  /** The steps of `apply` that can fail. */
  datatype Hazard = Stopping | Rechecking | Exchanging | Keeping | Starting | Watching | Verifying {
    predicate BeforeExchange() { Stopping? || Rechecking? || Exchanging? }
    predicate BeforeStart() { BeforeExchange() || Keeping? }
  }

  /** One thing that goes wrong in an otherwise undisturbed invocation: the process dies while it
      writes a record, or the evidence looked at before anything is done is refused, or a step of
      `apply` raises, and then perhaps the evidence check of the rollback refuses too. */
  datatype Doom = Unready | DiesWriting(phase: Phase) | Fails(hazard: Hazard, refused: bool)

  class Updater {
    /** Whether anything may fail in the current invocation, or only what `doom` says. */
    var disturbed: bool
    var doom: Option<Doom>

    // Durable state.
    const first: Tree
    var live: Tree
    var txns: map<nat, Transaction>
    var owner: Option<nat>
    var next: nat

    // The running invocation.
    var current: nat
    var memory: Update

    ghost var books: Books
    ghost var observed: set<nat>

    /** The running owner was seen by the invocation under way, since it was last started. */
    ghost var confirmed: bool

    /** A finished first installation, whose journal others may have left in any state. */
    constructor (installed: Tree, stamp: nat, leftover: bool, scratch: Update)
      ensures Inv() && live == installed && first == installed && books == Books([], [installed], None)
      ensures owner == Some(installed.binary) && txns == map[ORIGINAL := Transaction(None, None, None, stamp, leftover)]
    {
      disturbed, doom, first, live := true, None, installed, installed;
      txns, owner := map[ORIGINAL := Transaction(None, None, None, stamp, leftover)], Some(installed.binary);
      next, current, memory := installed.inode + 1, ORIGINAL, scratch;
      books, observed, confirmed := Books([], [installed], None), {}, false;
    }

    ghost predicate Inv()
      reads this
    {
      && Sound(first, txns, live, next, books) && ORIGINAL in txns && Witnessed(txns, observed)
      && (owner.Some? ==> owner.value == live.binary)
    }

    /** Nothing fails in the current invocation. */
    predicate Calm()
      reads this
    {
      !disturbed && doom.None?
    }

    /** Nothing fails but perhaps one step of `apply`. */
    predicate Smooth()
      reads this
    {
      !disturbed && (doom.Some? ==> doom.value.Fails? && !doom.value.refused)
    }

    predicate Spared(phase: Phase)
      reads this
    {
      !disturbed && doom != Some(DiesWriting(phase))
    }

    predicate DoomedTo(hazard: Hazard)
      reads this
    {
      !disturbed && doom.Some? && doom.value.Fails? && doom.value.hazard == hazard
    }

    /** A step of `apply` meets its hazard. */
    method Risk(hazard: Hazard) returns (o: Outcome)
      ensures !disturbed ==> o == if DoomedTo(hazard) then Raised else Done
    {
      if DoomedTo(hazard) {
        return Raised;
      }
      o := Observe(disturbed);
    }

    /** The evidence looked at before anything is done. */
    method Preflight() returns (o: Outcome)
      ensures !disturbed ==> o == if doom == Some(Unready) then Raised else Done
    {
      if !disturbed && doom == Some(Unready) {
        return Raised;
      }
      o := Observe(disturbed);
    }

    /** The evidence part of `check` in a rollback. */
    method Evidence() returns (o: Outcome)
      ensures Smooth() ==> o.Done?
      ensures !disturbed && doom.Some? && doom.value.Fails? && doom.value.refused ==> o.Raised?
    {
      if !disturbed && doom.Some? && doom.value.Fails? && doom.value.refused {
        return Raised;
      }
      o := Observe(disturbed);
    }

    /** The invocation may write `u` into its journal. */
    ghost predicate CanRecord(u: Update)
      reads this
    {
      MayRecord(first, txns, live, next, books, current, u) && (u.verified ==> current in observed)
    }

    /** The record in memory, and nothing else, was written since. */
    ghost predicate RecordedNow(before: Txns, b: Books)
      reads this
    {
      && current in before && current in txns && b.Formed()
      && txns == Written(before, current, memory, txns[current].stamp) && books == Rebooked(before, b, live, current, memory)
    }

    /** `save`. The journal is replaced as a whole, but through a scratch file of a fixed name that
        an interrupted write leaves behind, and then no later write succeeds. The first record of a
        new transaction is written in place; interrupted, it is no record, for it can be neither
        read nor replaced. Nothing is assumed about the file state a write leaves (`stamp`). */
    method Save() returns (o: Outcome)
      requires Inv() && CanRecord(memory)
      modifies this`txns, this`books
      ensures Inv() && SameTrees(old(txns), txns, current)
      ensures || (txns == old(txns) && books == old(books))
              || (txns == Interrupted(old(txns), current) && books == old(books) && !o.Done?)
              || RecordedNow(old(txns), old(books))
      ensures o.Done? ==> RecordedNow(old(txns), old(books))
      ensures !old(txns)[current].Writable(current) ==> !o.Done? && txns == old(txns) && books == old(books)
      ensures Spared(memory.phase) && old(txns)[current].Writable(current) ==> o.Done?
      ensures !disturbed && !Spared(memory.phase) && old(txns)[current].Sealed() && !old(txns)[current].leftover ==>
                o.Died? && txns == Interrupted(old(txns), current) && books == old(books)
    {
      hide Sound, Rebooked, Witnessed;
      var fate := Draw(disturbed);
      var initial := txns[current].journal.None? && current != ORIGINAL;
      if !txns[current].Writable(current) {
        return if fate.Ends().Died? then Died else Raised;
      }
      var left: bool := *;
      if !disturbed && !Spared(memory.phase) {
        fate, left := DieBefore, true;
      }
      if !fate.Before() {
        var stamp: nat := *;
        RecordKeeps(first, txns, live, next, books, current, memory, stamp);
        UpdateOnly(txns, current, txns[current].(journal := Some(memory), stamp := stamp));
        WitnessedStays(txns, observed, current, txns[current].(journal := Some(memory), stamp := stamp));
        books := Rebooked(txns, books, live, current, memory);
        txns := Written(txns, current, memory, stamp);
      } else if left && !initial {
        InterruptionKeeps(first, txns, live, next, books, current);
        UpdateOnly(txns, current, txns[current].(leftover := true));
        WitnessedHere();
        WitnessedStays(txns, observed, current, txns[current].(leftover := true));
        txns := Interrupted(txns, current);
      }
      o := fate.Ends();
    }

    lemma WitnessedHere()
      requires Inv() && current in txns
      ensures txns[current].journal.Some? && txns[current].journal.value.verified ==> current in observed
    {
    }

    // ---- Effects, each under a durable intent ----

    /** The journal on disk says one of the two phases. */
    ghost predicate Intends(forward: Phase, backward: Phase)
      reads this
    {
      && current in txns && txns[current].journal.Some?
      && (txns[current].journal.value.phase == forward || txns[current].journal.value.phase == backward)
    }

    /** `exchange`: one atomic swap of the live directory, only while no owner runs. The live
        path is never empty. */
    method Exchange(slot: Slot) returns (o: Outcome)
      requires Inv() && owner.None? && books.pending == Some(current) && txns[current].Sealed()
      requires Intends(ExchangeRequested, RollbackExchangeRequested)
      requires slot.Previous? ==> txns[current].previous.Some?
      requires slot.Stage? ==> txns[current].stage.Some?
      modifies this`live, this`txns
      ensures Inv() && OnlyChanges(old(txns), txns, current)
      ensures (live == old(live) && txns == old(txns))
              || (live == (if slot.Stage? then old(txns)[current].stage else old(txns)[current].previous).value
                  && txns == old(txns)[current := if slot.Stage? then old(txns)[current].(stage := Some(old(live)))
                                                  else old(txns)[current].(previous := Some(old(live)))])
      ensures o.Done? ==> live != old(live)
      ensures !disturbed ==> o.Done?
    {
      var fate := Draw(disturbed);
      if !fate.Before() {
        var t := txns[current];
        var tree, moved := if slot.Stage? then t.stage.value else t.previous.value,
                           if slot.Stage? then t.(stage := Some(live)) else t.(previous := Some(live));
        MoveKeeps(first, txns, live, next, books, current, moved, tree);
        UpdateOnly(txns, current, moved);
        WitnessedHere();
        WitnessedStays(txns, observed, current, moved);
        live, txns := tree, txns[current := moved];
      }
      o := fate.Ends();
    }

    /** `exclusive_rename(stage, previous)`. */
    method KeepPrevious() returns (o: Outcome)
      requires Inv() && Intends(ExchangeRequested, ExchangeRequested) && books.pending == Some(current) && txns[current].Sealed()
      modifies this`txns
      ensures Inv() && OnlyChanges(old(txns), txns, current)
      ensures txns == old(txns)
              || (old(txns)[current].previous.None?
                  && txns == old(txns)[current := old(txns)[current].(stage := None, previous := old(txns)[current].stage)])
      ensures o.Done? ==> old(txns)[current].stage.Some? && txns[current].stage.None?
      ensures !disturbed && old(txns)[current].stage.Some? ==> o.Done?
    {
      var t := txns[current];
      if t.previous.Some? || t.stage.None? {
        return Raised;
      }
      var fate := Draw(disturbed);
      if !fate.Before() {
        MoveKeeps(first, txns, live, next, books, current, t.(stage := None, previous := t.stage), live);
        UpdateOnly(txns, current, t.(stage := None, previous := t.stage));
        WitnessedHere();
        WitnessedStays(txns, observed, current, t.(stage := None, previous := t.stage));
        txns := txns[current := t.(stage := None, previous := t.stage)];
      }
      o := fate.Ends();
    }

    /** `systemctl stop`, observed. */
    method Stop() returns (o: Outcome)
      requires Inv() && Intends(StopRequested, RollbackStopRequested)
      modifies this`owner
      ensures Inv()
      ensures o.Done? ==> owner.None?
      ensures !disturbed ==> o.Done?
    {
      var fate := Draw(disturbed);
      if !fate.Before() {
        owner := None;
      }
      o := fate.Ends();
    }

    /** `systemctl start`: the owner runs whatever is live. */
    method Start() returns (o: Outcome)
      requires Inv() && Intends(StartRequested, RollbackStartRequested)
      modifies this`owner, this`confirmed
      ensures Inv() && !confirmed
      ensures o.Done? ==> owner == Some(live.binary)
      ensures !disturbed ==> o.Done?
    {
      var fate := Draw(disturbed);
      confirmed := false;
      if !fate.Before() {
        owner := Some(live.binary);
      }
      o := fate.Ends();
    }

    /** `wait_owner`: the owner of the live app is seen running, several times the same. */
    method SeeOwner() returns (o: Outcome)
      requires owner == Some(live.binary)
      modifies this`confirmed
      ensures o.Done? ==> confirmed
      ensures !disturbed ==> o.Done?
    {
      o := Observe(disturbed);
      if o.Done? {
        confirmed := true;
      }
    }

    // ---- Rollback ----

    /** The invocation holds the lock, its record is the journaled plan, and the live tree is
        one of its two. */
    ghost predicate Ready()
      reads this
    {
      && Inv() && current in txns && txns[current].Sealed()
      && memory.oldApp == txns[current].journal.value.oldApp && memory.predecessor == txns[current].journal.value.predecessor
      && memory.candidate == txns[current].journal.value.candidate && memory.candidate != Some(memory.oldApp)
      && (books.pending.None? || books.pending.value == current)
      && (live == memory.oldApp || Some(live) == memory.candidate)
      && (memory.verified ==> current in observed)
    }

    /** `update['phase'] = …; self.save(update)` for an unfinished phase. */
    method Record(phase: Phase) returns (o: Outcome)
      requires Ready() && !phase.Terminal() && !phase.Preparing?
      modifies this`memory, this`txns, this`books
      ensures Ready() && memory == old(memory).(phase := phase)
      ensures SameTrees(old(txns), txns, current)
      ensures o.Done? ==> books.pending == Some(current) && txns[current].journal == Some(memory) && !txns[current].leftover
      ensures old(txns)[current].leftover ==> !o.Done? && txns == old(txns) && books == old(books)
      ensures Spared(phase) && !old(txns)[current].leftover ==> o.Done?
      ensures !disturbed && !Spared(phase) && !old(txns)[current].leftover ==>
                o.Died? && txns == Interrupted(old(txns), current) && books == old(books)
    {
      hide Sound, Witnessed;
      Reopens(first, txns, live, next, books, current);
      memory := memory.(phase := phase);
      o := Save();
    }

    /** Records a terminal phase; the trees must already be where it says, and the owner seen. A commit
        needs a verified candidate. */
    method Finish(phase: Phase) returns (o: Outcome)
      requires Ready() && phase.Terminal() && confirmed && (phase.Committed? ==> memory.verified)
      requires phase.RolledBack? ==> live == memory.oldApp
      requires phase.Committed? ==> Some(live) == memory.candidate && txns[current].previous == Some(memory.oldApp)
      modifies this`memory, this`txns, this`books
      ensures Ready() && memory == old(memory).(phase := phase)
      ensures SameTrees(old(txns), txns, current)
      ensures o.Done? ==> txns[current].journal == Some(memory) && books.pending.None? && !txns[current].leftover
      ensures old(txns)[current].leftover ==> !o.Done? && txns == old(txns) && books == old(books)
      ensures Spared(phase) && !old(txns)[current].leftover ==> o.Done?
    {
      hide Sound, Witnessed;
      Reopens(first, txns, live, next, books, current);
      memory := memory.(phase := phase);
      o := Save();
    }

    /** Stops a running candidate and swaps the old tree back in. The location test never
        refuses: whatever crashed before, the old tree is in exactly one of the two places. */
    method RestoreOld() returns (o: Outcome)
      requires Ready() && Some(live) == memory.candidate
      modifies this`memory, this`txns, this`books, this`owner, this`live
      ensures Ready() && memory == old(memory).(phase := memory.phase) && OnlyChanges(old(txns), txns, current)
      ensures o.Done? ==> live == memory.oldApp && owner.None? && !txns[current].leftover
      ensures old(txns)[current].leftover ==>
                !o.Done? && txns == old(txns) && live == old(live) && books == old(books) && owner == old(owner)
      ensures Smooth() && !old(txns)[current].leftover ==> o.Done?
    {
      hide Sound, Witnessed;
      if owner.Some? {
        :- Record(RollbackStopRequested);
        :- Stop();
      }
      SingleLocation(first, txns, live, next, books, current);
      var t := txns[current];
      if t.previous.Some? == t.stage.Some? {
        return Raised;
      }
      var slot := if t.previous.Some? then Previous else Stage;
      if (if slot.Previous? then t.previous else t.stage) != Some(memory.oldApp) {
        return Raised;
      }
      :- Record(RollbackExchangeRequested);
      o := Exchange(slot);
    }

    /** The live tree is one of the plan's two and its predecessor's journal is untouched. */
    predicate Recognised(u: Update)
      reads this
    {
      (live == u.oldApp || Some(live) == u.candidate) && PredecessorHolds(txns, u)
    }

    /** `rollback`. What it does not recognise, and a journal it cannot write, it leaves untouched;
        otherwise, undisturbed, it restores the old tree, and it moves no tree when the old one is
        already live. */
    method Rollback() returns (o: Outcome)
      requires Inv() && current in txns && (books.pending.None? || books.pending.value == current)
      requires Recognised(memory) ==> Ready()
      modifies this`memory, this`txns, this`books, this`owner, this`live, this`confirmed
      ensures Inv() && OnlyChanges(old(txns), txns, current)
      ensures !old(Recognised(memory)) || old(txns)[current].leftover ==>
                !o.Done? && txns == old(txns) && live == old(live) && books == old(books) && owner == old(owner)
      ensures old(Recognised(memory)) ==> Ready() && memory == old(memory).(phase := memory.phase)
      ensures Smooth() ==> (o.Done? <==> old(Recognised(memory)) && !old(txns)[current].leftover)
      ensures !disturbed && doom.Some? && doom.value.Fails? && doom.value.refused ==>
                o.Raised? && txns == old(txns) && live == old(live) && books == old(books) && owner == old(owner) && memory == old(memory)
      ensures old(live == memory.oldApp) ==> live == old(live) && SameTrees(old(txns), txns, current)
      ensures o.Done? ==> live == memory.oldApp && owner == Some(live.binary)
                          && txns[current].journal == Some(memory) && memory.phase.RolledBack? && !txns[current].leftover
    {
      hide Sound, Witnessed;
      :- Evidence();
      if !Recognised(memory) {
        return Raised;
      }
      OwnPredecessor();
      ghost var before := txns;
      if Some(live) == memory.candidate {
        :- RestoreOld();
      }
      if live != memory.oldApp {
        return Raised;
      }
      PredecessorStays(before, txns, current, memory);
      o := RestartOld();
    }

    /** Restarts the old owner if it is gone, and records the end. */
    method RestartOld() returns (o: Outcome)
      requires Ready() && live == memory.oldApp && PredecessorHolds(txns, memory)
      modifies this`memory, this`txns, this`books, this`owner, this`confirmed
      ensures Ready() && memory == old(memory).(phase := memory.phase)
      ensures SameTrees(old(txns), txns, current)
      ensures old(txns)[current].leftover ==> !o.Done? && txns == old(txns) && books == old(books) && owner == old(owner)
      ensures Smooth() && !old(txns)[current].leftover ==> o.Done?
      ensures o.Done? ==> owner == Some(live.binary) && txns[current].journal == Some(memory) && memory.phase.RolledBack?
                          && !txns[current].leftover
    {
      hide Sound, Witnessed;
      OwnPredecessor();
      ghost var before := txns;
      confirmed := false;
      if owner.None? {
        :- Record(RollbackStartRequested);
        :- Start();
      }
      :- SeeOwner();
      PredecessorStays(before, txns, current, memory);
      if !PredecessorHolds(txns, memory) {
        return Raised;
      }
      o := Finish(RolledBack);
    }

    /** The invocation's own writes never touch its predecessor's journal. */
    lemma OwnPredecessor()
      requires Ready()
      ensures BuildsOnOther(current, memory)
    {
    }

    // ---- The four requests ----

    /** Everything that decides whether `--recover-update` of `id` works. */
    predicate Recoverable(id: nat)
      reads this
    {
      && id in txns && Unblocked(txns, id) && txns[id].Sealed() && Recognised(txns[id].journal.value)
      && !txns[id].leftover
    }

    /** `--recover-update`: any journaled transaction may be asked to roll back, finished ones
        too. Only the newest commit, or the pending one, can change the live app. */
    method Recover(id: nat) returns (o: Outcome)
      requires Inv()
      modifies this`current, this`memory, this`txns, this`books, this`owner, this`live, this`confirmed
      ensures Inv()
      ensures o.Done? ==> id in txns && txns[id].journal.Some? && txns[id].journal.value.phase.RolledBack?
                          && live == txns[id].journal.value.oldApp
      ensures !old(Recoverable(id)) ==>
                !o.Done? && txns == old(txns) && live == old(live) && books == old(books) && owner == old(owner)
      ensures Calm() ==> (o.Done? <==> old(Recoverable(id)))
    {
      hide Recorded;
      current := id;
      if id !in txns || !Unblocked(txns, id) || txns[id].journal.None? {
        return Raised;
      }
      memory := txns[id].journal.value;
      if memory.candidate.None? {
        // No plan digest was ever recorded, so no reviewed digest can match.
        return Raised;
      }
      if Recognised(memory) {
        Reopens(first, txns, live, next, books, id);
      }
      o := Rollback();
    }

    /** Which transactions can be unwound: with the history within its bound and no interrupted
        journal write, a sealed pending one always, a committed one exactly when it is the newest,
        each as long as its predecessor's journal is untouched. */
    lemma WhatCanBeUnwound(id: nat)
      requires Inv() && id in txns && txns[id].Sealed() && |txns.Keys - {ORIGINAL}| <= MAX_UPDATES
      ensures !txns[id].journal.value.phase.Terminal() ==>
                (Recoverable(id) <==> PredecessorHolds(txns, txns[id].journal.value) && !txns[id].leftover)
      ensures txns[id].Committed() && books.pending.None? ==>
                && books.chain != []
                && (Recoverable(id) <==>
                    books.chain[|books.chain| - 1] == id && PredecessorHolds(txns, txns[id].journal.value) && !txns[id].leftover)
    {
      if txns[id].Committed() {
        var k :| 0 <= k < |books.chain| && books.chain[k] == id;
        assert Link(txns, books.chain[k], books.nodes[k], books.nodes[k + 1]);
      }
    }

    /** Stops the old owner, exchanges the trees and keeps the old one aside. */
    method SwapIn() returns (o: Outcome)
      requires Ready() && live == memory.oldApp && txns[current].stage == memory.candidate
      modifies this`memory, this`txns, this`books, this`owner, this`live
      ensures Ready() && OnlyChanges(old(txns), txns, current) && memory == old(memory).(phase := memory.phase)
      ensures memory.phase.StopRequested? || memory.phase.ExchangeRequested?
      ensures old(txns)[current].leftover ==> !o.Done?
      ensures o.Done? ==> Swapped() && owner.None? && txns[current].journal.value.phase.ExchangeRequested?
      ensures !disturbed && !old(txns)[current].leftover && (doom.Some? && doom.value.DiesWriting? ==> doom.value.phase.StartRequested?) ==>
                && !txns[current].leftover
                && (if doom.Some? && doom.value.Fails? && doom.value.hazard.BeforeStart()
                    then o.Raised? && (live == memory.oldApp <==> doom.value.hazard.BeforeExchange())
                    else o.Done?)
      ensures o.Done? ==> !txns[current].leftover
    {
      hide Sound, Witnessed;
      o := Done;
      :- StopFirst();
      o := ExchangeTrees();
    }

    /** Exchanges the trees under its intent and keeps the old one aside. */
    method ExchangeTrees() returns (o: Outcome)
      requires Ready() && live == memory.oldApp && txns[current].stage == memory.candidate && owner.None? && !txns[current].leftover
      modifies this`memory, this`txns, this`books, this`live
      ensures Ready() && OnlyChanges(old(txns), txns, current) && memory == old(memory).(phase := ExchangeRequested)
      ensures o.Done? ==> Swapped() && txns[current].journal.value.phase.ExchangeRequested? && !txns[current].leftover
      ensures Spared(ExchangeRequested) ==>
                && !txns[current].leftover && o == (if DoomedTo(Exchanging) || DoomedTo(Keeping) then Raised else Done)
                && (DoomedTo(Exchanging) <==> live == memory.oldApp)
    {
      hide Sound, MayRecord, Written, Witnessed;
      :- Record(ExchangeRequested);
      :- Risk(Exchanging);
      :- Exchange(Stage);
      :- Risk(Keeping);
      o := KeepPrevious();
    }

    /** Stops the old owner under its intent and looks at everything again. */
    method StopFirst() returns (o: Outcome)
      requires Ready()
      modifies this`memory, this`txns, this`books, this`owner
      ensures Ready() && SameTrees(old(txns), txns, current) && memory == old(memory).(phase := StopRequested)
      ensures old(txns)[current].leftover ==> !o.Done?
      ensures o.Done? ==> owner.None? && !txns[current].leftover && books.pending == Some(current)
      ensures Spared(StopRequested) && !old(txns)[current].leftover ==>
                !txns[current].leftover && o == if DoomedTo(Stopping) || DoomedTo(Rechecking) then Raised else Done
    {
      hide Sound, MayRecord, Written, Witnessed;
      :- Record(StopRequested);
      :- Risk(Stopping);
      :- Stop();
      o := Risk(Rechecking);
    }

    /** The `try` of `apply`. */
    method Forward() returns (o: Outcome)
      requires Ready() && live == memory.oldApp && txns[current].stage == memory.candidate
      modifies this`memory, this`txns, this`books, this`owner, this`live, this`observed, this`confirmed
      ensures Ready() && OnlyChanges(old(txns), txns, current)
      ensures memory == old(memory).(phase := memory.phase, verified := memory.verified)
      ensures !memory.phase.Preparing? && !memory.phase.RolledBack?
      ensures memory.phase.Committed? ==>
                Some(live) == memory.candidate && txns[current].previous == Some(memory.oldApp) && confirmed && memory.verified
      ensures old(txns)[current].leftover ==> !o.Done?
      ensures o.Done? ==> memory.phase.Committed? && memory.verified && txns[current].journal == Some(memory) && books.pending.None?
      ensures Calm() && !old(txns)[current].leftover ==> o.Done?
      ensures !disturbed && doom.Some? && doom.value.Fails? && !old(txns)[current].leftover ==>
                && o.Raised? && !txns[current].leftover && !memory.phase.Committed?
                && (live == memory.oldApp <==> doom.value.hazard.BeforeExchange())
                && (memory.verified <==> old(memory).verified || doom.value.hazard.Verifying?)
      ensures !disturbed && doom == Some(DiesWriting(StartRequested)) && !old(txns)[current].leftover ==> o.Died? && Stranded(current)
    {
      hide Sound, Witnessed;
      o := Done;
      :- SwapIn();
      o := StartNew();
    }

    /** The swapped-in candidate is started, watched, verified and committed. */
    method StartNew() returns (o: Outcome)
      requires Ready() && Swapped() && txns[current].journal.value.phase.ExchangeRequested? && !txns[current].leftover && owner.None?
      modifies this`memory, this`txns, this`books, this`owner, this`observed, this`confirmed
      ensures Ready() && OnlyChanges(old(txns), txns, current)
      ensures memory == old(memory).(phase := memory.phase, verified := memory.verified)
      ensures memory.phase.StartRequested? || memory.phase.Committed?
      ensures memory.phase.Committed? ==> Swapped() && confirmed && memory.verified
      ensures o.Done? ==> memory.phase.Committed? && memory.verified && txns[current].journal == Some(memory) && books.pending.None?
      ensures !disturbed && doom.Some? && doom.value.Fails? && !doom.value.hazard.BeforeStart() ==>
                && o.Raised? && !txns[current].leftover && !memory.phase.Committed?
                && (memory.verified <==> old(memory).verified || doom.value.hazard.Verifying?)
      ensures Calm() ==> o.Done?
      ensures !disturbed && doom == Some(DiesWriting(StartRequested)) ==> o.Died? && Stranded(current)
    {
      hide Sound, Witnessed;
      o := Done;
      :- Launch();
      memory := memory.(verified := true);
      :- Risk(Verifying);
      if Some(live) != memory.candidate || txns[current].previous != Some(memory.oldApp) {
        return Raised;
      }
      o := Finish(Committed);
    }

    /** The candidate's owner is started and watched. */
    method Launch() returns (o: Outcome)
      requires Ready() && Swapped() && txns[current].journal.value.phase.ExchangeRequested? && !txns[current].leftover && owner.None?
      modifies this`memory, this`txns, this`books, this`owner, this`observed, this`confirmed
      ensures Ready() && OnlyChanges(old(txns), txns, current) && memory == old(memory).(phase := StartRequested) && Swapped()
      ensures o.Done? ==> current in observed && confirmed && !txns[current].leftover
      ensures !disturbed && (doom.Some? ==> !doom.value.DiesWriting?) ==>
                !txns[current].leftover && o == if DoomedTo(Starting) || DoomedTo(Watching) then Raised else Done
      ensures !disturbed && doom == Some(DiesWriting(StartRequested)) ==> o.Died? && Stranded(current)
    {
      hide Sound, Witnessed;
      o := Done;
      :- Record(StartRequested);
      :- Risk(Starting);
      :- Start();
      o := WaitOwner();
    }

    /** `wait_owner` of the candidate: only its own observation of the running owner counts. */
    method WaitOwner() returns (o: Outcome)
      requires Ready() && Some(live) == memory.candidate && owner == Some(live.binary)
      modifies this`observed, this`confirmed
      ensures Ready() && (o.Done? ==> current in observed && confirmed) && (!o.Done? ==> observed == old(observed))
      ensures !disturbed ==> o == if DoomedTo(Watching) then Raised else Done
    {
      hide Sound, Witnessed;
      o := Risk(Watching);
      if o.Done? {
        WitnessedGrows(txns, observed, current);
        observed, confirmed := observed + {current}, true;
      }
    }

    /** The candidate is live and the old tree is kept. */
    predicate Swapped()
      reads this
    {
      Some(live) == memory.candidate && current in txns && txns[current].previous == Some(memory.oldApp)
    }

    /** The candidate is live, nothing runs, the update is unfinished, and its journal cannot be
        written any more. */
    predicate Stranded(id: nat)
      reads this
    {
      && id in txns && txns[id].Sealed() && txns[id].journal.value.phase.ExchangeRequested? && txns[id].leftover
      && Some(live) == txns[id].journal.value.candidate && owner.None?
    }

    /** One step of `apply` raised: the old app is back and running, or, if the rollback was refused,
        recovery is asked for, with the trees and the verification as the failure left them. */
    ghost predicate AfterFailure(id: nat, u: Update)
      reads this
      requires doom.Some? && doom.value.Fails?
    {
      && id in txns && txns[id].journal.Some? && !txns[id].leftover && txns[id].journal.value.failed
      && var now := txns[id].journal.value;
         if doom.value.refused then
           && now.phase.RecoveryRequired? && (now.verified <==> u.verified || doom.value.hazard.Verifying?)
           && (if doom.value.hazard.BeforeExchange() then live == u.oldApp else Some(live) == u.candidate)
         else now.phase.RolledBack? && live == u.oldApp && owner == Some(live.binary)
    }

    /** Everything that decides whether `apply` of `id` works. */
    predicate Applicable(id: nat)
      reads this
    {
      && id in txns && Unblocked(txns, id) && txns[id].Sealed()
      && var u := txns[id].journal.value;
         && u.phase.Prepared? && live == u.oldApp && txns[id].stage == u.candidate && owner == Some(u.oldApp.binary)
         && PredecessorHolds(txns, u)
    }

    /** `apply`. Undisturbed, it commits if and only if the reviewed plan still holds and the journal
        can be written; a refused plan changes nothing. If one step raises, the old app is put back
        and runs again at once, unless the evidence for the rollback is refused too. */
    method Apply(id: nat) returns (o: Outcome)
      requires Inv()
      modifies this`current, this`memory, this`txns, this`books, this`owner, this`live, this`observed, this`confirmed
      ensures Inv()
      ensures o.Done? ==> id in txns && txns[id].Committed() && Some(live) == txns[id].journal.value.candidate && id in observed
                          && books.pending.None? && books.chain != [] && books.chain[|books.chain| - 1] == id
      ensures !old(Applicable(id)) ==> !o.Done? && txns == old(txns) && live == old(live) && owner == old(owner)
      ensures Calm() ==> (o.Done? <==> old(Applicable(id)) && !old(txns)[id].leftover)
      ensures !disturbed && doom == Some(Unready) ==> o.Raised? && txns == old(txns) && live == old(live) && owner == old(owner)
      ensures !disturbed && doom.Some? && doom.value.Fails? && old(Applicable(id)) && !old(txns)[id].leftover ==>
                o.Raised? && AfterFailure(id, old(txns)[id].journal.value)
      ensures !disturbed && doom == Some(DiesWriting(StartRequested)) && old(Applicable(id)) && !old(txns)[id].leftover ==>
                o.Died? && Stranded(id) && Some(live) == old(txns)[id].journal.value.candidate
    {
      hide Sound, Witnessed;
      current := id;
      if !Applicable(id) {
        return Raised;
      }
      memory := txns[id].journal.value;
      :- Preflight();
      NothingElsePending(first, txns, live, next, books, id);
      NewerThanOld(first, txns, live, next, books, id);
      WitnessedHere();
      o := Attempt();
    }

    /** `apply` once the plan is known to hold. */
    method Attempt() returns (o: Outcome)
      requires Ready() && live == memory.oldApp && txns[current].stage == memory.candidate && PredecessorHolds(txns, memory)
      modifies this`memory, this`txns, this`books, this`owner, this`live, this`observed, this`confirmed
      ensures Inv()
      ensures o.Done? ==> current in txns && txns[current].Committed() && Some(live) == txns[current].journal.value.candidate
                          && current in observed
                          && books.pending.None? && books.chain != [] && books.chain[|books.chain| - 1] == current
      ensures Calm() ==> (o.Done? <==> !old(txns)[current].leftover)
      ensures !disturbed && doom.Some? && doom.value.Fails? && !old(txns)[current].leftover ==>
                o.Raised? && AfterFailure(current, old(memory))
      ensures !disturbed && doom == Some(DiesWriting(StartRequested)) && !old(txns)[current].leftover ==>
                o.Died? && Stranded(current) && Some(live) == old(memory).candidate
    {
      hide Sound, Witnessed;
      OwnPredecessor();
      ghost var before := txns;
      o := Forward();
      if o.Raised? {
        PredecessorStays(before, txns, current, memory);
        o := HandleFailure();
      }
      if o.Done? {
        Reopens(first, txns, live, next, books, current);
      }
    }

    /** The handler of `apply`: save what is in memory, roll back, or ask for recovery. */
    method HandleFailure() returns (o: Outcome)
      requires Ready() && PredecessorHolds(txns, memory) && !memory.phase.Preparing? && !memory.phase.RolledBack?
      requires memory.phase.Committed? ==>
                 Some(live) == memory.candidate && txns[current].previous == Some(memory.oldApp) && confirmed && memory.verified
      modifies this`memory, this`txns, this`books, this`owner, this`live, this`confirmed
      ensures Ready() && !o.Done? && memory == old(memory).(phase := memory.phase, failed := true)
      ensures !disturbed && doom.Some? && doom.value.Fails? && !old(txns)[current].leftover && !old(memory).phase.Committed? ==>
                && o.Raised? && !txns[current].leftover && txns[current].journal.Some?
                && (if doom.value.refused
                    then live == old(live) && txns[current].journal == Some(old(memory).(phase := RecoveryRequired, failed := true))
                    else live == memory.oldApp && owner == Some(live.binary) && txns[current].journal.value.phase.RolledBack?
                         && txns[current].journal.value.failed)
    {
      hide Sound, Witnessed;
      memory := memory.(failed := true);
      OwnPredecessor();
      ghost var before := txns;
      if memory.phase.Committed? {
        :- Finish(Committed);
      } else {
        :- Record(memory.phase);
      }
      PredecessorStays(before, txns, current, memory);
      o := UndoFailure();
      if o.Raised? {
        o := Record(RecoveryRequired);
      }
      o := if o.Died? then Died else Raised;
    }

    /** The rollback of a failed `apply` begins only once the failure is on record. */
    method UndoFailure() returns (o: Outcome)
      requires Ready() && PredecessorHolds(txns, memory) && txns[current].journal == Some(memory) && memory.failed
      modifies this`memory, this`txns, this`books, this`owner, this`live, this`confirmed
      ensures Ready() && OnlyChanges(old(txns), txns, current) && memory == old(memory).(phase := memory.phase)
      ensures Smooth() && !old(txns)[current].leftover ==> o.Done?
      ensures o.Done? ==> live == memory.oldApp && owner == Some(live.binary) && txns[current].journal == Some(memory)
                          && memory.phase.RolledBack? && !txns[current].leftover
      ensures !disturbed && doom.Some? && doom.value.Fails? && doom.value.refused ==>
                o.Raised? && txns == old(txns) && live == old(live) && books == old(books)
    {
      hide Sound, Witnessed;
      o := Rollback();
    }

    /** Everything that decides whether `reconcile` of `id` works. */
    predicate Reconcilable(id: nat)
      reads this
    {
      && id in txns && Unblocked(txns, id) && txns[id].Sealed() && !txns[id].leftover
      && var u := txns[id].journal.value;
         u.phase.RecoveryRequired? && u.verified && Some(live) == u.candidate && txns[id].previous == Some(u.oldApp) && owner.Some?
    }

    /** `reconcile`: declares an already verified start committed; touches no tree. */
    method Reconcile(id: nat) returns (o: Outcome)
      requires Inv()
      modifies this`current, this`memory, this`txns, this`books, this`confirmed
      ensures Inv() && (txns == old(txns) || SameTrees(old(txns), txns, id))
      ensures o.Done? ==> id in txns && txns[id].Committed() && Some(live) == txns[id].journal.value.candidate
                          && books.pending.None? && id in observed
      ensures !old(Reconcilable(id)) ==> !o.Done? && txns == old(txns) && books == old(books)
      ensures Calm() ==> (o.Done? <==> old(Reconcilable(id)))
      ensures !disturbed && doom == Some(Unready) ==> o.Raised? && txns == old(txns)
    {
      hide Sound, Witnessed;
      current := id;
      if id !in txns || !Unblocked(txns, id) || txns[id].journal.None? {
        return Raised;
      }
      memory := txns[id].journal.value;
      if !memory.phase.RecoveryRequired? || !memory.verified || memory.candidate.None? {
        return Raised;
      }
      if Some(live) != memory.candidate || txns[id].previous != Some(memory.oldApp) || owner.None? {
        return Raised;
      }
      confirmed := false;
      :- Preflight();
      :- SeeOwner();
      NothingElsePending(first, txns, live, next, books, id);
      NewerThanOld(first, txns, live, next, books, id);
      WitnessedHere();
      o := Finish(Committed);
    }

    /** The journal the installed app came with: the newest commit's, or the first installation's. */
    ghost function Tip(): nat
      reads this
    {
      if books.chain == [] then ORIGINAL else books.chain[|books.chain| - 1]
    }

    /** `old_release` finds exactly one predecessor of the live app. */
    ghost predicate HasPredecessor(id: nat, oldBinary: nat)
      reads this
    {
      && live.binary == oldBinary
      && (if id == ORIGINAL || books.chain == [] then first.binary == oldBinary else first.binary != oldBinary)
    }

    /** Everything that decides whether `prepare` of `id` works. */
    ghost predicate Preparable(id: nat, oldBinary: nat, binary: nat)
      reads this
    {
      && Unblocked(txns, id) && (if id == ORIGINAL then id in txns && txns[id].Blank() && !txns[id].leftover else id !in txns)
      && binary != oldBinary && HasPredecessor(id, oldBinary) && owner == Some(oldBinary)
    }

    /** `prepare`: opens a new transaction on the live app, never replacing a journal. The
        predecessor it records is the end of the chain, in the state it is in. */
    method Prepare(id: nat, oldBinary: nat, binary: nat) returns (o: Outcome)
      requires Inv()
      modifies this`current, this`memory, this`txns, this`books, this`next
      ensures Inv() && live == old(live) && txns - {id} == old(txns) - {id}
      ensures old(books).pending.Some? ==> !o.Done? && txns == old(txns) && books == old(books)
      ensures id in old(txns) && old(txns)[id].journal.Some? ==> !o.Done? && txns == old(txns)
      ensures o.Done? ==>
                && id in txns && txns[id].Sealed() && txns[id].stage == txns[id].journal.value.candidate && !txns[id].leftover
                && txns[id].journal.value.phase.Prepared? && txns[id].journal.value.oldApp == live
                && txns[id].journal.value.candidate.value.binary == binary != live.binary
                && PredecessorHolds(txns, txns[id].journal.value)
                && (id != ORIGINAL ==> txns[id].journal.value.predecessor == Some(Predecessor(Tip(), txns[Tip()].stamp)))
      ensures Calm() ==> (o.Done? <==> old(Preparable(id, oldBinary, binary)))
      ensures !disturbed && doom == Some(Unready) ==> o.Raised? && txns == old(txns)
    {
      hide Sound, Witnessed;
      current := id;
      if !Unblocked(txns, id) || (if id == ORIGINAL then !txns[id].Blank() else id in txns) {
        return Raised;
      }
      if binary == oldBinary || owner != Some(oldBinary) {
        return Raised;
      }
      NothingElsePending(first, txns, live, next, books, id);
      var found := FindPredecessor(id, oldBinary);
      if found.None? {
        return Raised;
      }
      :- Preflight();
      var predecessor := if id == ORIGINAL then None else Some(Predecessor(found.value, txns[found.value].stamp));
      ghost var before := txns;
      :- OpenDirectory();
      memory := Update(Preparing, live, None, predecessor, false, false);
      o := SavePlan(binary);
      if id != ORIGINAL {
        PredecessorKept(before, txns, id, found.value);
      }
    }

    /** `old_release`: resolves the installed inode to exactly one verified predecessor. */
    method FindPredecessor(id: nat, oldBinary: nat) returns (found: Option<nat>)
      requires Inv() && books.pending.None?
      ensures found.Some? <==> HasPredecessor(id, oldBinary)
      ensures found.Some? && id != ORIGINAL ==> found.value == Tip() && found.value in txns
    {
      if live.binary != oldBinary {
        return None;
      }
      PredecessorIsTip(first, txns, live, next, books, oldBinary);
      hide Sound, Matches;
      if id == ORIGINAL {
        return if first.binary == oldBinary then Some(ORIGINAL) else None;
      }
      var matches := Matches(txns, live, oldBinary);
      if |matches| + (if first.binary == oldBinary then 1 else 0) != 1 {
        return None;
      }
      if matches == {} {
        return Some(ORIGINAL);
      }
      var k :| k in matches;
      assert matches == {k} by {
        assert |matches - {k}| == 0;
      }
      return Some(k);
    }

    /** `mkdir` of the transaction directory; the original journal has its own already. */
    method OpenDirectory() returns (o: Outcome)
      requires Inv() && books.pending.None? && (current == ORIGINAL || current !in txns)
      modifies this`txns, this`books
      ensures Inv()
      ensures txns - {current} == old(txns) - {current} && books.chain == old(books).chain
      ensures (txns == old(txns) && books == old(books))
              || (current != ORIGINAL && txns == old(txns)[current := NEW_TRANSACTION]
                  && books == old(books).(pending := Some(current)))
      ensures o.Done? ==> current in txns && (current != ORIGINAL ==> txns == old(txns)[current := NEW_TRANSACTION])
      ensures !disturbed ==> o.Done?
    {
      if current == ORIGINAL {
        return Done;
      }
      var fate := Draw(disturbed);
      if !fate.Before() {
        OpenKeeps(first, txns, live, next, books, current);
        WitnessedStays(txns, observed, current, NEW_TRANSACTION);
        txns, books := txns[current := NEW_TRANSACTION], books.(pending := Some(current));
      }
      o := fate.Ends();
    }

    /** Journals the intent, stages the candidate, seals the plan. */
    method SavePlan(binary: nat) returns (o: Outcome)
      requires Inv() && current in txns && txns[current].Blank()
      requires books.pending.None? || books.pending.value == current
      requires memory == Update(Preparing, live, None, memory.predecessor, false, false) && BuildsOnOther(current, memory)
      modifies this`memory, this`txns, this`books, this`next
      ensures Inv() && OnlyChanges(old(txns), txns, current) && books.chain == old(books).chain
      ensures o.Done? ==>
                && txns[current].journal == Some(memory) && txns[current].stage == memory.candidate && !txns[current].leftover
                && memory == Update(Prepared, live, Some(Tree(old(next), binary)), old(memory).predecessor, false, false)
      ensures old(txns)[current].leftover && current == ORIGINAL ==> !o.Done?
      ensures Calm() && !old(txns)[current].leftover ==> o.Done?
    {
      hide Sound, MayRecord, Interrupted, Witnessed;
      IntentRecordable(first, txns, live, next, books, current, memory);
      :- Save();
      o := SealPlan(binary);
    }

    /** Stages the candidate under a new inode and records the plan that names it. */
    method SealPlan(binary: nat) returns (o: Outcome)
      requires Inv() && current in txns && books.pending == Some(current) && txns[current].journal == Some(memory)
      requires memory == Update(Preparing, live, None, memory.predecessor, false, false)
      modifies this`memory, this`txns, this`books, this`next
      ensures Inv() && OnlyChanges(old(txns), txns, current) && books.chain == old(books).chain
      ensures o.Done? ==>
                && txns[current].journal == Some(memory) && txns[current].stage == memory.candidate && !txns[current].leftover
                && memory == Update(Prepared, live, Some(Tree(old(next), binary)), old(memory).predecessor, false, false)
      ensures Calm() && !old(txns)[current].leftover ==> o.Done?
    {
      hide Sound, MayRecord, Interrupted, Witnessed;
      var fate := Draw(disturbed);
      var tree := Tree(next, binary);
      if !fate.Before() {
        StageKeeps(first, txns, live, next, books, current, tree);
        SealRecordable(first, txns, live, next, books, current, tree);
        UpdateOnly(txns, current, txns[current].(stage := Some(tree)));
        WitnessedHere();
        WitnessedStays(txns, observed, current, txns[current].(stage := Some(tree)));
        txns, next := txns[current := txns[current].(stage := Some(tree))], next + 1;
      }
      if !fate.Fine? {
        return fate.Ends();
      }
      memory := memory.(phase := Prepared, candidate := Some(tree));
      o := Save();
    }

    // ---- Whole histories ----

    /** Any history of requests, each failing or dying anywhere: at most one transaction is
        unfinished, the committed ones form one chain from the first app, and with none
        unfinished the live app is the last committed candidate. */
    method AnyHistory(requests: seq<Request>)
      requires Inv()
      modifies this
      ensures Inv()
      ensures forall i, j :: i in txns && j in txns && txns[i].Pending(i) && txns[j].Pending(j) ==> i == j
      ensures Chained(first, txns, books)
      ensures (forall id :: id in txns ==> !txns[id].Pending(id)) ==> live == books.Head()
      ensures forall id :: id in txns && txns[id].Sealed() && Some(live) == txns[id].journal.value.candidate ==>
                Aside(txns[id], txns[id].journal.value.oldApp)
    {
      for i := 0 to |requests|
        invariant Inv()
      {
        disturbed, doom := *, *;
        match requests[i] {
          case PrepareUpdate(id, oldBinary, binary) => var o := Prepare(id, oldBinary, binary);
          case ApplyUpdate(id) => var o := Apply(id);
          case RecoverUpdate(id) => var o := Recover(id);
          case ReconcileUpdate(id) => var o := Reconcile(id);
        }
      }
      forall id | id in txns && txns[id].Sealed() && Some(live) == txns[id].journal.value.candidate
        ensures Aside(txns[id], txns[id].journal.value.oldApp)
      {
        SingleLocation(first, txns, live, next, books, id);
      }
    }

    /** A stranded update stays stranded: whatever is asked, disturbed or not, no tree, journal or
        owner changes, so the candidate stays live with nothing running. */
    method StrandedForever(id: nat, requests: seq<Request>)
      requires Inv() && Stranded(id)
      modifies this
      ensures Inv() && Stranded(id) && txns == old(txns) && live == old(live)
    {
      hide Sound, Witnessed;
      for i := 0 to |requests|
        invariant Inv() && Stranded(id) && txns == old(txns) && live == old(live)
      {
        disturbed, doom := *, *;
        OnlyPending(id);
        match requests[i] {
          case PrepareUpdate(k, oldBinary, binary) => var o := Prepare(k, oldBinary, binary);
          case ApplyUpdate(k) => var o := Apply(k);
          case RecoverUpdate(k) => var o := Recover(k);
          case ReconcileUpdate(k) => var o := Reconcile(k);
        }
      }
    }

    lemma OnlyPending(id: nat)
      requires Inv() && Stranded(id)
      ensures books.pending == Some(id) && txns[id].Pending(id)
    {
    }
  }

  datatype Request =
    | PrepareUpdate(id: nat, oldBinary: nat, binary: nat)
    | ApplyUpdate(id: nat) | RecoverUpdate(id: nat) | ReconcileUpdate(id: nat)

  /** A first update, prepared and ready to be applied. */
  method PreparedUpdate(installed: Tree, binary: nat, scratch: Update) returns (updater: Updater)
    requires binary != installed.binary
    ensures fresh(updater) && updater.Inv() && updater.first == installed && updater.Applicable(1)
    ensures !updater.txns[1].leftover && updater.txns[1].journal.value.candidate.value.binary == binary && !updater.disturbed
  {
    hide Sound, Witnessed;
    updater := new Updater(installed, 0, false, scratch);
    updater.disturbed, updater.doom := false, None;
    ghost var before := updater.txns;
    assert before.Keys - {ORIGINAL} == {};
    var prepared := updater.Prepare(1, installed.binary, binary);
    PredecessorKept(before, updater.txns, 1, ORIGINAL);
    OneUpdate(before, updater.txns);
  }

  lemma OneUpdate(before: Txns, after: Txns)
    requires before.Keys == {ORIGINAL} && 1 in after && after - {1} == before - {1}
    ensures after.Keys == {ORIGINAL, 1} && |after.Keys - {ORIGINAL}| == 1
  {
    assert after.Keys - {1} == (after - {1}).Keys == (before - {1}).Keys;
    assert (before - {1}).Keys == {ORIGINAL};
    assert after.Keys - {ORIGINAL} == {1};
  }

  /** The promise that an interrupted update can be recovered is false. This is a run of the code:
      an update is prepared and applied, and the process dies while it writes that it is about to
      start the new owner. By `StrandedForever` nothing leaves the state it reaches. */
  method InterruptedJournalWrite(installed: Tree, binary: nat, scratch: Update) returns (updater: Updater)
    requires binary != installed.binary
    ensures fresh(updater) && updater.Inv() && updater.first == installed
    ensures updater.Stranded(1) && updater.live.binary == binary && !updater.Recoverable(1)
  {
    hide Sound, Witnessed;
    updater := PreparedUpdate(installed, binary, scratch);
    updater.doom := Some(DiesWriting(StartRequested));
    var applied := updater.Apply(1);
  }
}
