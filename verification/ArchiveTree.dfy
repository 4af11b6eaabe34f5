/** Package verification (scripts/build_identity_gate.py, `verify_package` and the inventory loop of
    `manifest_document`): what an accepted list of archive entries amounts to. */
module ArchiveTree {
  import opened Faults
  import opened ArchivePath

  /** An archive member. Its digest stands for its contents. */
  datatype Entry = Entry(name: string, directory: bool, size: int, digest: string)

  datatype Record = Record(path: string, digest: string, bytes: int)

  datatype Platform = MacOS | Linux | Windows {
    function Root(): string { if MacOS? then "Weavelo.app" else "Weavelo" }

    function Executable(): string {
      match this
      case MacOS => "Contents/MacOS/weavelo"
      case Linux => "weavelo"
      case Windows => "weavelo.exe"
    }
  }

  /** The parts of the release manifest that speak about files. */
  datatype Inventory = Inventory(platform: Platform, root: string, executable: string, records: seq<Record>)

  const MANIFEST := "weavelo-release-manifest.json"
  const LIMIT := 1024 * 1024 * 1024
  const MANIFEST_LIMIT := 2 * 1024 * 1024
  const MAX_FILES := 20000

  function TotalSize(entries: seq<Entry>): int {
    if entries == [] then 0 else entries[0].size + TotalSize(entries[1..])
  }

  // ---- Well-formed trees ----

  /** `p` is an entry or a directory above one. */
  ghost predicate Covers(entries: seq<Entry>, p: string) {
    exists i :: 0 <= i < |entries| && entries[i].name != "." && Above(p, entries[i].name)
  }

  /** No two different paths or ancestors look the same when case is folded. */
  ghost predicate FoldInjective(entries: seq<Entry>, fold: string -> string) {
    forall p, q :: Covers(entries, p) && Covers(entries, q) && fold(p) == fold(q) ==> p == q
  }

  /** No two entries have the same folded name. */
  ghost predicate FoldUnique(entries: seq<Entry>, fold: string -> string) {
    forall i, j :: 0 <= i < j < |entries| ==> fold(entries[i].name) != fold(entries[j].name)
  }

  predicate EachRelative(entries: seq<Entry>) {
    forall i :: 0 <= i < |entries| ==> Relative(entries[i].name) && entries[i].size >= 0
  }

  /** No file lies above another entry. */
  predicate FilesAreLeaves(entries: seq<Entry>) {
    forall i, j :: 0 <= i < |entries| && 0 <= j < |entries| && StrictlyAbove(entries[i].name, entries[j].name) ==> entries[i].directory
  }

  predicate StrictlyAbove(p: string, name: string) {
    name != "." && p != name && Above(p, name)
  }

  ghost predicate Tree(entries: seq<Entry>, fold: string -> string) {
    EachRelative(entries) && FoldUnique(entries, fold) && FoldInjective(entries, fold) && FilesAreLeaves(entries)
  }

  /** The map of prefixes by folded form holds exactly the paths covered. */
  ghost predicate Indexes(prefixes: map<string, string>, covered: set<string>, fold: string -> string) {
    && (forall p <- covered :: fold(p) in prefixes && prefixes[fold(p)] == p)
    && (forall k <- prefixes :: prefixes[k] in covered && fold(prefixes[k]) == k)
  }

  ghost predicate CoveredBy(entries: seq<Entry>, covered: set<string>) {
    forall p :: p in covered <==> Covers(entries, p)
  }

  lemma IndexGrows(prefixes: map<string, string>, covered: set<string>, fold: string -> string, p: string)
    requires Indexes(prefixes, covered, fold)
    requires fold(p) in prefixes ==> prefixes[fold(p)] == p
    ensures Indexes(prefixes[fold(p) := p], covered + {p}, fold)
  {
  }

  /** The prefixes of one entry: they are indexed unless two would look the same. */
  method IndexEntry(name: string, fold: string -> string, prefixes0: map<string, string>, ghost covered0: set<string>)
    returns (ok: bool, prefixes: map<string, string>, ghost covered: set<string>)
    requires Indexes(prefixes0, covered0, fold)
    ensures ok ==> Indexes(prefixes, covered, fold)
    ensures ok ==> forall p :: p in covered <==> p in covered0 || (name != "." && Above(p, name))
    ensures !ok ==> name != "." && exists p, q :: Above(p, name) && (q in covered0 || Above(q, name)) && fold(p) == fold(q) && p != q
  {
    hide Above, Split, Join;
    prefixes, covered := prefixes0, covered0;
    var parts := Parts(name);
    for n := 1 to |parts| + 1
      invariant Indexes(prefixes, covered, fold)
      invariant forall p :: p in covered <==> p in covered0 || exists m :: 1 <= m < n && p == Prefix(name, m)
    {
      var prefix := Prefix(name, n);
      PrefixIsAbove(name, n);
      if fold(prefix) in prefixes && prefixes[fold(prefix)] != prefix {
        var other := prefixes[fold(prefix)];
        if other !in covered0 {
          var m :| 1 <= m < n && other == Prefix(name, m);
          PrefixIsAbove(name, m);
        }
        assert Above(prefix, name) && (other in covered0 || Above(other, name)) && fold(prefix) == fold(other) && prefix != other;
        ok := false;
        return;
      }
      IndexGrows(prefixes, covered, fold, prefix);
      prefixes, covered := prefixes[fold(prefix) := prefix], covered + {prefix};
    }
    ok := true;
    forall p
      ensures (exists m :: 1 <= m <= |parts| && p == Prefix(name, m)) <==> name != "." && Above(p, name)
    {
      PrefixesAreAbove(name, p);
    }
  }

  lemma PrefixesAreAbove(name: string, p: string)
    ensures (exists m :: 1 <= m <= |Parts(name)| && p == Prefix(name, m)) <==> name != "." && Above(p, name)
  {
    hide Above, Split, Join;
    if m :| 1 <= m <= |Parts(name)| && p == Prefix(name, m) {
      PrefixIsAbove(name, m);
    }
    if name != "." && Above(p, name) {
      var m := AboveIsPrefix(name, p);
    }
  }

  /** The folded names of the entries. */
  ghost predicate FoldsOf(entries: seq<Entry>, fold: string -> string, folded: set<string>) {
    && (forall k :: 0 <= k < |entries| ==> fold(entries[k].name) in folded)
    && (forall f <- folded :: exists k :: 0 <= k < |entries| && fold(entries[k].name) == f)
  }

  /** The kinds of the entries by name. */
  ghost predicate KindsOf(entries: seq<Entry>, kinds: map<string, bool>) {
    && (forall k :: 0 <= k < |entries| ==> entries[k].name in kinds && kinds[entries[k].name] == entries[k].directory)
    && (forall name <- kinds :: exists k :: 0 <= k < |entries| && entries[k].name == name)
  }

  /** What the first pass knows about the entries it has seen. */
  ghost predicate Scanned(entries: seq<Entry>, fold: string -> string, folded: set<string>, kinds: map<string, bool>) {
    EachRelative(entries) && FoldUnique(entries, fold) && FoldsOf(entries, fold, folded) && KindsOf(entries, kinds)
  }

  lemma FoldOne(entries: seq<Entry>, e: Entry, fold: string -> string, folded: set<string>)
    requires FoldsOf(entries, fold, folded) && FoldUnique(entries, fold) && fold(e.name) !in folded
    ensures FoldsOf(entries + [e], fold, folded + {fold(e.name)}) && FoldUnique(entries + [e], fold)
  {
    var more, folds := entries + [e], folded + {fold(e.name)};
    assert more[|entries|] == e;
    forall f <- folds
      ensures exists k :: 0 <= k < |more| && fold(more[k].name) == f
    {
      if f in folded {
        var k :| 0 <= k < |entries| && fold(entries[k].name) == f;
        assert fold(more[k].name) == f;
      }
    }
  }

  lemma KindOne(entries: seq<Entry>, e: Entry, kinds: map<string, bool>)
    requires KindsOf(entries, kinds) && e.name !in kinds
    ensures KindsOf(entries + [e], kinds[e.name := e.directory])
  {
    var more, all := entries + [e], kinds[e.name := e.directory];
    assert more[|entries|] == e;
    forall name <- all
      ensures exists k :: 0 <= k < |more| && more[k].name == name
    {
      if name != e.name {
        var k :| 0 <= k < |entries| && entries[k].name == name;
        assert more[k].name == name;
      }
    }
  }

  lemma ScanOne(entries: seq<Entry>, e: Entry, fold: string -> string, folded: set<string>, kinds: map<string, bool>)
    requires Scanned(entries, fold, folded, kinds)
    requires Relative(e.name) && e.size >= 0 && fold(e.name) !in folded && e.name !in kinds
    ensures Scanned(entries + [e], fold, folded + {fold(e.name)}, kinds[e.name := e.directory])
  {
    hide Relative, FoldsOf, KindsOf, FoldUnique;
    FoldOne(entries, e, fold, folded);
    KindOne(entries, e, kinds);
  }

  lemma CoverOne(entries: seq<Entry>, e: Entry, p: string)
    ensures Covers(entries + [e], p) <==> Covers(entries, p) || (e.name != "." && Above(p, e.name))
  {
    hide Above;
    var more := entries + [e];
    if Covers(entries, p) {
      var i :| 0 <= i < |entries| && entries[i].name != "." && Above(p, entries[i].name);
      assert more[i] == entries[i];
    }
    if e.name != "." && Above(p, e.name) {
      assert more[|entries|] == e;
    }
  }

  /** The first pass: names, folded names, kinds and prefixes. */
  method ScanEntries(entries: seq<Entry>, fold: string -> string) returns (ok: bool, kinds: map<string, bool>)
    ensures ok <==> EachRelative(entries) && FoldUnique(entries, fold) && FoldInjective(entries, fold)
    ensures ok ==> exists folded :: Scanned(entries, fold, folded, kinds)
  {
    hide Relative, Above, Covers;
    var folded: set<string> := {};
    var prefixes: map<string, string> := map[];
    ghost var covered: set<string> := {};
    kinds := map[];
    CoversNothing();
    for i := 0 to |entries|
      invariant Scanned(entries[..i], fold, folded, kinds)
      invariant Indexes(prefixes, covered, fold) && CoveredBy(entries[..i], covered)
    {
      var e := entries[i];
      assert entries[..i + 1] == entries[..i] + [e];
      // A repeated name also repeats its folded form.
      if !Relative(e.name) || e.name in kinds || fold(e.name) in folded || e.size < 0 {
        AlreadySeen(entries, i, fold, folded, kinds);
        return false, kinds;
      }
      ScanOne(entries[..i], e, fold, folded, kinds);
      folded, kinds := folded + {fold(e.name)}, kinds[e.name := e.directory];
      ghost var before := covered;
      ok, prefixes, covered := IndexEntry(e.name, fold, prefixes, covered);
      forall p
        ensures Covers(entries[..i + 1], p) <==> Covers(entries[..i], p) || (e.name != "." && Above(p, e.name))
      {
        CoverOne(entries[..i], e, p);
      }
      if !ok {
        ghost var p, q :| Above(p, e.name) && (q in before || Above(q, e.name)) && fold(p) == fold(q) && p != q;
        CoversMore(entries, i + 1, p);
        CoversMore(entries, i + 1, q);
        return false, kinds;
      }
    }
    assert entries[..|entries|] == entries;
    ok := true;
  }

  lemma CoversNothing()
    ensures forall p :: !Covers([], p)
  {
  }

  lemma CoversMore(entries: seq<Entry>, n: nat, p: string)
    requires n <= |entries| && Covers(entries[..n], p)
    ensures Covers(entries, p)
  {
    hide Above;
    var i :| 0 <= i < n && entries[..n][i].name != "." && Above(p, entries[..n][i].name);
    assert entries[i] == entries[..n][i];
  }

  lemma AlreadySeen(entries: seq<Entry>, i: nat, fold: string -> string, folded: set<string>, kinds: map<string, bool>)
    requires i < |entries| && Scanned(entries[..i], fold, folded, kinds)
    requires !Relative(entries[i].name) || entries[i].name in kinds || fold(entries[i].name) in folded || entries[i].size < 0
    ensures !(EachRelative(entries) && FoldUnique(entries, fold))
  {
    hide Relative;
    if entries[i].name in kinds {
      var k :| 0 <= k < i && entries[..i][k].name == entries[i].name;
      assert entries[..i][k] == entries[k];
    } else if fold(entries[i].name) in folded {
      var k :| 0 <= k < i && fold(entries[..i][k].name) == fold(entries[i].name);
      assert entries[..i][k] == entries[k];
    }
  }

  /** No directory above the entry is a file. */
  method AncestorsAreDirectories(name: string, kinds: map<string, bool>) returns (ok: bool)
    ensures ok <==> forall p <- kinds :: StrictlyAbove(p, name) ==> kinds[p]
  {
    hide Above, Split, Join;
    var parts := Parts(name);
    var n := 1;
    while n < |parts|
      invariant forall m :: 1 <= m < n && m < |parts| && Prefix(name, m) in kinds ==> kinds[Prefix(name, m)]
    {
      var prefix := Prefix(name, n);
      if prefix in kinds && !kinds[prefix] {
        PrefixIsAbove(name, n);
        return false;
      }
      n := n + 1;
    }
    ok := true;
    forall p <- kinds | StrictlyAbove(p, name)
      ensures kinds[p]
    {
      var m := AboveIsPrefix(name, p);
      PrefixIsAbove(name, m);
    }
  }

  /** The second pass. */
  method CheckLeaves(entries: seq<Entry>, kinds: map<string, bool>, ghost fold: string -> string, ghost folded: set<string>)
    returns (ok: bool)
    requires Scanned(entries, fold, folded, kinds)
    ensures ok <==> FilesAreLeaves(entries)
  {
    hide EachRelative, FoldUnique, FoldsOf, StrictlyAbove;
    for j := 0 to |entries|
      invariant forall k, p :: 0 <= k < j && p in kinds && StrictlyAbove(p, entries[k].name) ==> kinds[p]
    {
      ok := AncestorsAreDirectories(entries[j].name, kinds);
      if !ok {
        var p :| p in kinds && StrictlyAbove(p, entries[j].name) && !kinds[p];
        var i :| 0 <= i < |entries| && entries[i].name == p;
        return;
      }
    }
    ok := true;
  }

  /** The tree part of `verify_package`: exactly the well-formed trees are accepted. */
  method VerifyTree(entries: seq<Entry>, fold: string -> string) returns (ok: bool)
    ensures ok <==> Tree(entries, fold)
  {
    hide EachRelative, FoldUnique, FoldInjective, FilesAreLeaves;
    var kinds;
    ok, kinds := ScanEntries(entries, fold);
    if ok {
      ghost var folded :| Scanned(entries, fold, folded, kinds);
      ok := CheckLeaves(entries, kinds, fold, folded);
    }
  }

  // ---- The inventory ----

  function TotalBytes(records: seq<Record>): int {
    if records == [] then 0 else TotalBytes(records[..|records| - 1]) + records[|records| - 1].bytes
  }

  predicate EachRecorded(records: seq<Record>) {
    forall i :: 0 <= i < |records| ==> Relative(records[i].path) && records[i].bytes >= 0
  }

  ghost predicate RecordsUnique(records: seq<Record>, fold: string -> string) {
    forall i, j :: 0 <= i < j < |records| ==> fold(records[i].path) != fold(records[j].path)
  }

  ghost predicate Complete(inv: Inventory, fold: string -> string) {
    && inv.root == inv.platform.Root() && inv.executable == inv.platform.Executable()
    && 0 < |inv.records| <= MAX_FILES && EachRecorded(inv.records) && RecordsUnique(inv.records, fold)
    && TotalBytes(inv.records) <= LIMIT
    && exists i :: 0 <= i < |inv.records| && inv.records[i].path == inv.executable
  }

  /** What the inventory loop knows about the records it has seen. */
  ghost predicate Noted(records: seq<Record>, fold: string -> string, names: set<string>, folded: set<string>) {
    && EachRecorded(records) && RecordsUnique(records, fold)
    && (forall k :: 0 <= k < |records| ==> records[k].path in names && fold(records[k].path) in folded)
    && (forall name <- names :: exists k :: 0 <= k < |records| && records[k].path == name)
    && (forall f <- folded :: exists k :: 0 <= k < |records| && fold(records[k].path) == f)
  }

  lemma NoteOne(records: seq<Record>, r: Record, fold: string -> string, names: set<string>, folded: set<string>)
    requires Noted(records, fold, names, folded) && Relative(r.path) && r.bytes >= 0 && fold(r.path) !in folded
    ensures Noted(records + [r], fold, names + {r.path}, folded + {fold(r.path)})
    ensures TotalBytes(records + [r]) == TotalBytes(records) + r.bytes
  {
    hide Relative;
    var more, ns, fs := records + [r], names + {r.path}, folded + {fold(r.path)};
    assert more[|records|] == r && more[..|records|] == records;
    forall name <- ns
      ensures exists k :: 0 <= k < |more| && more[k].path == name
    {
      if name in names {
        var k :| 0 <= k < |records| && records[k].path == name;
        assert more[k].path == name;
      }
    }
    forall f <- fs
      ensures exists k :: 0 <= k < |more| && fold(more[k].path) == f
    {
      if f in folded {
        var k :| 0 <= k < |records| && fold(records[k].path) == f;
        assert fold(more[k].path) == f;
      }
    }
  }

  lemma NotedBefore(records: seq<Record>, i: nat, fold: string -> string, names: set<string>, folded: set<string>)
    requires i < |records| && Noted(records[..i], fold, names, folded)
    requires !Relative(records[i].path) || records[i].bytes < 0 || records[i].path in names || fold(records[i].path) in folded
    ensures !(EachRecorded(records) && RecordsUnique(records, fold))
  {
    hide Relative;
    if records[i].path in names {
      var k :| 0 <= k < i && records[..i][k].path == records[i].path;
      assert records[..i][k] == records[k];
    } else if fold(records[i].path) in folded {
      var k :| 0 <= k < i && fold(records[..i][k].path) == fold(records[i].path);
      assert records[..i][k] == records[k];
    }
  }

  /** The inventory loop of `manifest_document`. */
  method CheckInventory(inv: Inventory, fold: string -> string) returns (ok: bool)
    ensures ok <==> Complete(inv, fold)
  {
    hide Relative, Noted, EachRecorded, RecordsUnique;
    var records := inv.records;
    if inv.root != inv.platform.Root() || inv.executable != inv.platform.Executable() || |records| == 0 || |records| > MAX_FILES {
      return false;
    }
    var names: set<string>, folded: set<string>, total := {}, {}, 0;
    NotedNothing(fold);
    for i := 0 to |records|
      invariant total == TotalBytes(records[..i])
      invariant Noted(records[..i], fold, names, folded)
    {
      var r := records[i];
      if !Relative(r.path) || r.bytes < 0 || r.path in names || fold(r.path) in folded {
        NotedBefore(records, i, fold, names, folded);
        return false;
      }
      NoteOne(records[..i], r, fold, names, folded);
      assert records[..i + 1] == records[..i] + [r];
      names, folded, total := names + {r.path}, folded + {fold(r.path)}, total + r.bytes;
    }
    assert records[..|records|] == records;
    NotedNames(records, fold, names, folded, inv.executable);
    ok := total <= LIMIT && inv.executable in names;
  }

  lemma NotedNothing(fold: string -> string)
    ensures Noted([], fold, {}, {}) && TotalBytes([]) == 0
  {
  }

  lemma NotedNames(records: seq<Record>, fold: string -> string, names: set<string>, folded: set<string>, name: string)
    requires Noted(records, fold, names, folded)
    ensures EachRecorded(records) && RecordsUnique(records, fold)
    ensures name in names <==> exists i :: 0 <= i < |records| && records[i].path == name
  {
  }

  // ---- The payload ----

  /** The member is the recorded file: same path under the root, same size, same contents. */
  predicate Listed(e: Entry, root: string, r: Record) {
    e.name == root + "/" + r.path && e.size == r.bytes && e.digest == r.digest
  }

  predicate IsPayload(e: Entry) {
    !e.directory && e.name != MANIFEST
  }

  /** Some record lists the member. */
  ghost predicate Recorded(e: Entry, inv: Inventory) {
    exists j :: 0 <= j < |inv.records| && Listed(e, inv.root, inv.records[j])
  }

  /** Some member is the recorded file. */
  ghost predicate Delivered(entries: seq<Entry>, root: string, r: Record) {
    exists i :: 0 <= i < |entries| && IsPayload(entries[i]) && Listed(entries[i], root, r)
  }

  /** The members are in order so far. */
  ghost predicate MembersFit(entries: seq<Entry>, inv: Inventory, n: nat) {
    forall i :: 0 <= i < n <= |entries| ==>
      (entries[i].directory ==> Above(inv.root, entries[i].name)) && (IsPayload(entries[i]) ==> Recorded(entries[i], inv))
  }

  ghost predicate Payload(entries: seq<Entry>, inv: Inventory) {
    MembersFit(entries, inv, |entries|) && forall j :: 0 <= j < |inv.records| ==> Delivered(entries, inv.root, inv.records[j])
  }

  /** The records by their name in the archive. */
  ghost predicate Filed(inv: Inventory, n: nat, files: map<string, Record>) {
    && n <= |inv.records|
    && (forall j :: 0 <= j < n ==> var name := inv.root + "/" + inv.records[j].path; name in files && files[name] == inv.records[j])
    && (forall name <- files :: exists j :: 0 <= j < n && name == inv.root + "/" + inv.records[j].path && files[name] == inv.records[j])
  }

  lemma FileOne(inv: Inventory, fold: string -> string, n: nat, files: map<string, Record>)
    requires Filed(inv, n, files) && n < |inv.records| && RecordsUnique(inv.records, fold)
    ensures Filed(inv, n + 1, files[inv.root + "/" + inv.records[n].path := inv.records[n]])
  {
    var name := inv.root + "/" + inv.records[n].path;
    forall j | 0 <= j < n
      ensures inv.root + "/" + inv.records[j].path != name
    {
      RootCancels(inv.root, inv.records[j].path, inv.records[n].path);
    }
  }

  lemma RootCancels(root: string, p: string, q: string)
    ensures root + "/" + p == root + "/" + q <==> p == q
  {
    assert (root + "/" + p)[|root| + 1..] == p;
    assert (root + "/" + q)[|root| + 1..] == q;
  }

  method FilesByName(inv: Inventory, ghost fold: string -> string) returns (files: map<string, Record>)
    requires RecordsUnique(inv.records, fold)
    ensures Filed(inv, |inv.records|, files)
  {
    hide Filed;
    files := map[];
    assert Filed(inv, 0, files) by { FiledNothing(inv); }
    for n := 0 to |inv.records|
      invariant Filed(inv, n, files)
    {
      FileOne(inv, fold, n, files);
      files := files[inv.root + "/" + inv.records[n].path := inv.records[n]];
    }
  }

  lemma FiledNothing(inv: Inventory)
    ensures Filed(inv, 0, map[])
  {
  }

  /** A payload member passes exactly when some record lists it. */
  lemma LookUp(inv: Inventory, files: map<string, Record>, e: Entry)
    requires Filed(inv, |inv.records|, files)
    ensures (e.name in files && e.size == files[e.name].bytes && e.digest == files[e.name].digest) <==> Recorded(e, inv)
    ensures Recorded(e, inv) ==> e.name in files && Listed(e, inv.root, files[e.name])
  {
  }

  /** The names of the payload members among the first `n` entries. */
  ghost predicate ActualNames(entries: seq<Entry>, n: nat, actual: set<string>) {
    && n <= |entries|
    && (forall k :: 0 <= k < n && IsPayload(entries[k]) ==> entries[k].name in actual)
    && (forall name <- actual :: exists k :: 0 <= k < n && IsPayload(entries[k]) && entries[k].name == name)
  }

  lemma ActualOne(entries: seq<Entry>, n: nat, actual: set<string>)
    requires ActualNames(entries, n, actual) && n < |entries|
    ensures ActualNames(entries, n + 1, if IsPayload(entries[n]) then actual + {entries[n].name} else actual)
  {
  }

  /** The last loop of `verify_package`. */
  method CheckPayload(entries: seq<Entry>, inv: Inventory, ghost fold: string -> string) returns (ok: bool)
    requires RecordsUnique(inv.records, fold)
    ensures ok <==> Payload(entries, inv)
  {
    hide Above, Filed, RecordsUnique, ActualNames, Recorded, Delivered;
    var files := FilesByName(inv, fold);
    var actual: set<string> := {};
    NoActualNames(entries);
    for i := 0 to |entries|
      invariant MembersFit(entries, inv, i) && ActualNames(entries, i, actual)
    {
      var e := entries[i];
      LookUp(inv, files, e);
      ActualOne(entries, i, actual);
      if e.directory {
        if !Above(inv.root, e.name) {
          return false;
        }
      } else if e.name != MANIFEST {
        if !(e.name in files && e.size == files[e.name].bytes && e.digest == files[e.name].digest) {
          return false;
        }
        actual := actual + {e.name};
      }
    }
    ok := actual == files.Keys;
    FoundAll(entries, inv, files, actual);
  }

  lemma NoActualNames(entries: seq<Entry>)
    ensures ActualNames(entries, 0, {})
  {
  }

  /** Nothing is missing exactly when the names found are all the names recorded. */
  lemma FoundAll(entries: seq<Entry>, inv: Inventory, files: map<string, Record>, actual: set<string>)
    requires Filed(inv, |inv.records|, files) && MembersFit(entries, inv, |entries|) && ActualNames(entries, |entries|, actual)
    ensures actual == files.Keys <==> forall j :: 0 <= j < |inv.records| ==> Delivered(entries, inv.root, inv.records[j])
  {
    hide Above;
    forall name <- actual
      ensures name in files
    {
      var k :| 0 <= k < |entries| && IsPayload(entries[k]) && entries[k].name == name;
      LookUp(inv, files, entries[k]);
    }
    forall j | 0 <= j < |inv.records|
      ensures inv.root + "/" + inv.records[j].path in actual <==> Delivered(entries, inv.root, inv.records[j])
    {
      FoundOne(entries, inv, files, actual, j);
    }
    if forall j :: 0 <= j < |inv.records| ==> Delivered(entries, inv.root, inv.records[j]) {
      assert files.Keys <= actual;
    }
  }

  lemma FoundOne(entries: seq<Entry>, inv: Inventory, files: map<string, Record>, actual: set<string>, j: nat)
    requires Filed(inv, |inv.records|, files) && MembersFit(entries, inv, |entries|) && ActualNames(entries, |entries|, actual)
    requires j < |inv.records|
    ensures inv.root + "/" + inv.records[j].path in actual <==> Delivered(entries, inv.root, inv.records[j])
  {
    hide Above;
    var name := inv.root + "/" + inv.records[j].path;
    if name in actual {
      var k :| 0 <= k < |entries| && IsPayload(entries[k]) && entries[k].name == name;
      LookUp(inv, files, entries[k]);
    }
  }

  // ---- The package ----

  predicate IsManifest(e: Entry) {
    e.name == MANIFEST && !e.directory && e.size <= MANIFEST_LIMIT
  }

  /** The inventory is what the manifest member says: it is the one member of that name, and its
      contents are the ones the release receipt pins. `read` takes the inventory from contents. */
  ghost predicate Pinned(entries: seq<Entry>, expected: string, read: string -> Option<Inventory>, inv: Inventory) {
    && (exists i :: 0 <= i < |entries| && IsManifest(entries[i]) && entries[i].digest == expected)
    && read(expected) == Some(inv)
  }

  ghost predicate Accepted(entries: seq<Entry>, expected: string, read: string -> Option<Inventory>,
                           fold: string -> string, inv: Inventory)
  {
    && |entries| <= MAX_FILES && TotalSize(entries) <= LIMIT + MANIFEST_LIMIT
    && Tree(entries, fold) && Pinned(entries, expected, read, inv) && Complete(inv, fold) && Payload(entries, inv)
  }

  /** The manifest member, if there is one. */
  method FindManifest(entries: seq<Entry>, ghost fold: string -> string) returns (found: Option<Entry>)
    requires FoldUnique(entries, fold)
    ensures found.Some? ==> found.value in entries && IsManifest(found.value)
    ensures forall i :: 0 <= i < |entries| && IsManifest(entries[i]) ==> found == Some(entries[i])
  {
    for i := 0 to |entries|
      invariant forall k :: 0 <= k < i ==> !IsManifest(entries[k])
    {
      if IsManifest(entries[i]) {
        forall k | 0 <= k < |entries| && IsManifest(entries[k])
          ensures k == i
        {
          SameNameOnce(entries, fold, k, i);
        }
        return Some(entries[i]);
      }
    }
    return None;
  }

  /** `verify_package`: the inventory of an accepted package, and no other package is accepted. */
  method VerifyPackage(entries: seq<Entry>, expected: string, read: string -> Option<Inventory>, fold: string -> string)
    returns (r: Option<Inventory>)
    ensures r.Some? ==> Accepted(entries, expected, read, fold, r.value)
    ensures r.None? ==> forall inv :: !Accepted(entries, expected, read, fold, inv)
  {
    hide EachRelative, FoldInjective, FilesAreLeaves, FoldUnique, Payload, EachRecorded, IsManifest, Complete;
    if |entries| > MAX_FILES || TotalSize(entries) > LIMIT + MANIFEST_LIMIT {
      return None;
    }
    var ok := VerifyTree(entries, fold);
    if !ok {
      return None;
    }
    var manifest := FindManifest(entries, fold);
    if manifest.None? || manifest.value.digest != expected || read(expected).None? {
      return None;
    }
    var inv := read(expected).value;
    ok := CheckInventory(inv, fold);
    if !ok {
      return None;
    }
    CompleteIsUnique(inv, fold);
    ok := CheckPayload(entries, inv, fold);
    r := if ok then Some(inv) else None;
  }

  lemma CompleteIsUnique(inv: Inventory, fold: string -> string)
    requires Complete(inv, fold)
    ensures RecordsUnique(inv.records, fold) && inv.root == inv.platform.Root()
  {
  }

  /** The payload members and the records correspond one to one: every member is recorded and
      every record delivered, no member has two records and no record two members. */
  lemma PayloadIsInventory(entries: seq<Entry>, expected: string, read: string -> Option<Inventory>,
                           fold: string -> string, inv: Inventory)
    requires Accepted(entries, expected, read, fold, inv)
    ensures forall i :: 0 <= i < |entries| && IsPayload(entries[i]) ==> Recorded(entries[i], inv)
    ensures forall j :: 0 <= j < |inv.records| ==> Delivered(entries, inv.root, inv.records[j])
    ensures forall i, j, k | 0 <= i < |entries| && 0 <= j < |inv.records| && 0 <= k < |inv.records| ::
              Listed(entries[i], inv.root, inv.records[j]) && Listed(entries[i], inv.root, inv.records[k]) ==> j == k
    ensures forall i, k, j | 0 <= i < |entries| && 0 <= k < |entries| && 0 <= j < |inv.records| ::
              Listed(entries[i], inv.root, inv.records[j]) && Listed(entries[k], inv.root, inv.records[j]) ==> i == k
  {
    hide Relative, Above, FoldInjective, FilesAreLeaves, EachRelative, EachRecorded, Recorded, Delivered, RecordsUnique, FoldUnique;
    forall i, j, k | 0 <= i < |entries| && 0 <= j < |inv.records| && 0 <= k < |inv.records|
      && Listed(entries[i], inv.root, inv.records[j]) && Listed(entries[i], inv.root, inv.records[k])
      ensures j == k
    {
      RootCancels(inv.root, inv.records[j].path, inv.records[k].path);
      SamePathOnce(inv.records, fold, j, k);
    }
    forall i, k, j | 0 <= i < |entries| && 0 <= k < |entries| && 0 <= j < |inv.records|
      && Listed(entries[i], inv.root, inv.records[j]) && Listed(entries[k], inv.root, inv.records[j])
      ensures i == k
    {
      SameNameOnce(entries, fold, i, k);
    }
  }

  lemma SamePathOnce(records: seq<Record>, fold: string -> string, j: nat, k: nat)
    requires RecordsUnique(records, fold) && j < |records| && k < |records| && records[j].path == records[k].path
    ensures j == k
  {
  }

  lemma SameNameOnce(entries: seq<Entry>, fold: string -> string, i: nat, k: nat)
    requires FoldUnique(entries, fold) && i < |entries| && k < |entries| && entries[i].name == entries[k].name
    ensures i == k
  {
  }

  /** Everything but the manifest lies under the root, and no member is the bare current directory. */
  lemma EverythingUnderRoot(entries: seq<Entry>, expected: string, read: string -> Option<Inventory>,
                            fold: string -> string, inv: Inventory, i: nat)
    requires Accepted(entries, expected, read, fold, inv) && i < |entries| && entries[i].name != MANIFEST
    ensures Above(inv.root, entries[i].name) && entries[i].name != "."
  {
    hide Tree, Complete, Above;
    CompleteIsUnique(inv, fold);
    if IsPayload(entries[i]) {
      assert Recorded(entries[i], inv);
      var j :| 0 <= j < |inv.records| && Listed(entries[i], inv.root, inv.records[j]);
      AboveHead(inv.root, inv.records[j].path);
    }
    DotIsOutside(inv.platform);
  }

  lemma DotIsOutside(platform: Platform)
    ensures !Above(platform.Root(), ".")
  {
  }
}
