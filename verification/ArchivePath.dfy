/** Relative artifact paths (scripts/build_identity_gate.py, `relative`): canonical, portable and
    free of control characters. */
module ArchivePath {
  import opened UnitText

  function Split(s: string): (parts: seq<string>)
    ensures |parts| >= 1
    decreases |s|
  {
    var i := Find(s, '/');
    if i == |s| then [s] else [s[..i]] + Split(s[i + 1..])
  }

  function Join(parts: seq<string>): string {
    if |parts| == 0 then "" else if |parts| == 1 then parts[0] else parts[0] + "/" + Join(parts[1..])
  }

  /** `PurePosixPath(name).parts`, for a canonical name. The path `.` has no parts. */
  function Parts(name: string): seq<string> {
    if name == "." then [] else Split(name)
  }

  const RESERVED: set<string> := {
    "con", "prn", "aux", "nul",
    "com1", "com2", "com3", "com4", "com5", "com6", "com7", "com8", "com9",
    "lpt1", "lpt2", "lpt3", "lpt4", "lpt5", "lpt6", "lpt7", "lpt8", "lpt9"}

  function Lower(s: string): (r: string)
    ensures |r| == |s|
  {
    seq(|s|, k requires 0 <= k < |s| => if 'A' <= s[k] <= 'Z' then s[k] - 'A' + 'a' else s[k])
  }

  /** A Windows device name, with or without an extension. */
  predicate Device(part: string) {
    Lower(part[..Find(part, '.')]) in RESERVED
  }

  predicate Portable(part: string) {
    part != "" && part[|part| - 1] != '.' && part[|part| - 1] != ' ' && !Device(part)
  }

  /** What `relative` accepts. */
  predicate Relative(name: string) {
    name != "" && Clean(name) && AllPortable(Parts(name))
  }

  predicate Clean(name: string) {
    forall k :: 0 <= k < |name| ==> name[k] != '\\' && name[k] != ':' && name[k] >= ' '
  }

  predicate AllPortable(parts: seq<string>) {
    forall k :: 0 <= k < |parts| ==> Portable(parts[k])
  }

  // ---- Ancestors ----

  /** `p` is the path itself or one of the directories above it. */
  predicate Above(p: string, name: string) {
    p == name || (|p| < |name| && name[..|p|] == p && name[|p|] == '/')
  }

  function Prefix(name: string, n: nat): string
    requires n <= |Parts(name)|
  {
    Join(Parts(name)[..n])
  }

  lemma SplitAt(s: string) returns (head: string, rest: string)
    requires '/' in s
    ensures s == head + "/" + rest && '/' !in head && Split(s) == [head] + Split(rest)
  {
    var i := Find(s, '/');
    head, rest := s[..i], s[i + 1..];
  }

  lemma JoinCons(head: string, parts: seq<string>, n: nat)
    requires 1 <= n <= |parts|
    ensures Join(([head] + parts)[..n + 1]) == head + "/" + Join(parts[..n])
  {
    assert ([head] + parts)[..n + 1][1..] == parts[..n];
  }

  lemma AboveCons(head: string, p: string, rest: string)
    ensures Above(head + "/" + p, head + "/" + rest) <==> Above(p, rest)
    ensures head + "/" + p == head + "/" + rest <==> p == rest
  {
    var h, s := head + "/", head + "/" + rest;
    assert s == h + rest && head + "/" + p == h + p;
    assert s[|h|..] == rest && (h + p)[|h|..] == p;
    if |p| < |rest| {
      assert s[..|h| + |p|] == h + rest[..|p|];
      assert (h + rest[..|p|])[|h|..] == rest[..|p|];
    }
  }

  lemma {:induction false} SplitPrefixIsAbove(s: string, n: nat)
    requires 1 <= n <= |Split(s)|
    ensures Above(Join(Split(s)[..n]), s)
    ensures n < |Split(s)| <==> Join(Split(s)[..n]) != s
    decreases |s|
  {
    hide Find, Above, Split, Join;
    if '/' !in s {
      SplitSingle(s);
      assert [s][..n] == [s];
    } else {
      var head, rest := SplitAt(s);
      if n == 1 {
        JoinFirst(head, Split(rest));
        AboveHead(head, rest);
      } else {
        SplitPrefixIsAbove(rest, n - 1);
        JoinCons(head, Split(rest), n - 1);
        AboveCons(head, Join(Split(rest)[..n - 1]), rest);
      }
    }
  }

  lemma SplitSingle(s: string)
    requires '/' !in s
    ensures Split(s) == [s] && Join([s]) == s && Above(s, s)
  {
  }

  lemma JoinFirst(head: string, parts: seq<string>)
    ensures Join(([head] + parts)[..1]) == head
  {
    assert ([head] + parts)[..1] == [head];
  }

  lemma AboveHead(head: string, rest: string)
    ensures Above(head, head + "/" + rest) && head != head + "/" + rest
  {
    assert (head + "/" + rest)[..|head|] == head;
  }

  lemma AboveSingle(p: string, s: string)
    requires '/' !in s && Above(p, s)
    ensures p == s
  {
  }

  /** Above a path with a head and a rest lies the head, or something that begins with it. */
  lemma AboveShape(p: string, head: string, rest: string)
    requires Above(p, head + "/" + rest) && '/' !in head
    ensures p == head || (|p| > |head| && p == head + "/" + p[|head| + 1..])
  {
    var s := head + "/" + rest;
    assert s[..|head|] == head && s[|head|] == '/';
    assert forall k :: 0 <= k < |head| ==> s[k] == head[k];
    if |p| >= |head| {
      assert p == s[..|p|];
      assert p[..|head|] == s[..|p|][..|head|] == s[..|head|];
    }
  }

  lemma {:induction false} AboveIsSplitPrefix(s: string, p: string) returns (n: nat)
    requires Above(p, s)
    ensures 1 <= n <= |Split(s)| && Join(Split(s)[..n]) == p
    decreases |s|
  {
    hide Find, Above, Split, Join;
    if '/' !in s {
      AboveSingle(p, s);
      SplitSingle(s);
      n := 1;
      assert [s][..1] == [s];
      return;
    }
    var head, rest := SplitAt(s);
    AboveShape(p, head, rest);
    if p == head {
      n := 1;
      JoinFirst(head, Split(rest));
    } else {
      var q := p[|head| + 1..];
      AboveCons(head, q, rest);
      var m := AboveIsSplitPrefix(rest, q);
      n := m + 1;
      JoinCons(head, Split(rest), m);
    }
  }

  /** The joined prefixes of the parts are exactly the path and the directories above it. */
  lemma PrefixIsAbove(name: string, n: nat)
    requires 1 <= n <= |Parts(name)|
    ensures Above(Prefix(name, n), name) && (n < |Parts(name)| <==> Prefix(name, n) != name)
  {
    SplitPrefixIsAbove(name, n);
  }

  lemma AboveIsPrefix(name: string, p: string) returns (n: nat)
    requires name != "." && Above(p, name)
    ensures 1 <= n <= |Parts(name)| && Prefix(name, n) == p
  {
    n := AboveIsSplitPrefix(name, p);
  }

  lemma {:induction false} SplitOfPrefix(s: string, n: nat)
    requires 1 <= n <= |Split(s)|
    ensures Split(Join(Split(s)[..n])) == Split(s)[..n]
    decreases |s|
  {
    hide Find, Split, Join;
    if '/' !in s {
      SplitSingle(s);
      assert [s][..n] == [s];
    } else {
      var head, rest := SplitAt(s);
      if n == 1 {
        JoinFirst(head, Split(rest));
        SplitSingle(head);
        assert ([head] + Split(rest))[..1] == [head];
      } else {
        SplitOfPrefix(rest, n - 1);
        JoinCons(head, Split(rest), n - 1);
        SplitCons(head, Join(Split(rest)[..n - 1]));
        assert ([head] + Split(rest))[..n] == [head] + Split(rest)[..n - 1];
      }
    }
  }

  lemma SplitCons(head: string, rest: string)
    requires '/' !in head
    ensures Split(head + "/" + rest) == [head] + Split(rest)
  {
    var s := head + ['/'] + rest;
    FindAfter(head, '/', rest);
    assert s[..|head|] == head && s[|head| + 1..] == rest;
  }

  /** Every directory above an accepted path is itself an accepted path, so none of them is
      empty, absolute, a step upwards or a device. */
  lemma AncestorsAreRelative(name: string, p: string)
    requires Relative(name) && Above(p, name)
    ensures Relative(p) && (name != "." ==> p != "." && name[0] != '/')
  {
    hide Portable, Split, Join, Find;
    if name != "." {
      var n := AboveIsPrefix(name, p);
      SplitOfPrefix(name, n);
      assert Split(p) == Split(name)[..n];
      assert AllPortable(Split(p));
      assert p == name[..|p|];
      FirstPartStarts(name);
      FirstPartStarts(p);
      DotIsNoPart(p);
    }
  }

  lemma FirstPartStarts(s: string)
    ensures Portable(Split(s)[0]) ==> s != "" && s[0] != '/'
  {
  }

  lemma DotIsNoPart(p: string)
    ensures p == "." ==> Split(p) == ["."] && !Portable(Split(p)[0])
  {
  }
}
