/** The compiled Android manifest reader (scripts/verify_release_apk.py,
    `compiled_manifest_attributes`): an indentation stack against the tree it stands for. */
module ManifestParser {
  import opened Faults

  /** A line of the dumped tree: an element at an indentation, an attribute, or anything else. */
  datatype Line = Element(depth: nat, name: string) | Attribute(name: string, value: string) | Other

  const MANIFEST := "manifest"
  const SECTIONS: set<string> := {MANIFEST, "application", "uses-sdk"}

  // ---- The tree ----

  /** The nearest element before line `n` with indentation below `depth`. */
  function Nearest(lines: seq<Line>, n: nat, depth: nat): (r: Option<nat>)
    requires n <= |lines|
    ensures r.Some? ==> r.value < n && lines[r.value].Element? && lines[r.value].depth < depth
    ensures forall k :: (if r.Some? then r.value + 1 else 0) <= k < n ==> !(lines[k].Element? && lines[k].depth < depth)
  {
    if n == 0 then None
    else if lines[n - 1].Element? && lines[n - 1].depth < depth then Some(n - 1)
    else Nearest(lines, n - 1, depth)
  }

  /** From the root down to an element. */
  function Chain(lines: seq<Line>, e: nat): (r: seq<nat>)
    requires e < |lines| && lines[e].Element?
    ensures r != [] && r[|r| - 1] == e && forall k :: 0 <= k < |r| ==> r[k] <= e && lines[r[k]].Element?
  {
    var parent := Nearest(lines, e, lines[e].depth);
    if parent.None? then [e] else Chain(lines, parent.value) + [e]
  }

  /** The element an attribute at line `n` belongs to: the last one before it. */
  function Owner(lines: seq<Line>, n: nat): (r: Option<nat>)
    requires n <= |lines|
    ensures r.Some? ==> r.value < n && lines[r.value].Element?
    ensures forall k :: (if r.Some? then r.value + 1 else 0) <= k < n ==> !lines[k].Element?
  {
    if n == 0 then None else if lines[n - 1].Element? then Some(n - 1) else Owner(lines, n - 1)
  }

  function Path(section: string): seq<string> {
    if section == MANIFEST then [MANIFEST] else [MANIFEST, section]
  }

  function NamesOf(lines: seq<Line>, chain: seq<nat>): (r: seq<string>)
    requires forall k :: 0 <= k < |chain| ==> chain[k] < |lines| && lines[chain[k]].Element?
    ensures |r| == |chain| && forall k :: 0 <= k < |chain| ==> r[k] == lines[chain[k]].name
  {
    seq(|chain|, k requires 0 <= k < |chain| => lines[chain[k]].name)
  }

  /** The element at `e` is the section: its path from the root is the section's. */
  predicate IsSection(lines: seq<Line>, e: int, section: string) {
    0 <= e < |lines| && lines[e].Element? && NamesOf(lines, Chain(lines, e)) == Path(section)
  }

  /** Line `k` gives the section an attribute. */
  predicate Gives(lines: seq<Line>, k: int, section: string, name: string, value: string) {
    && 0 <= k < |lines| && lines[k] == Attribute(name, value)
    && Owner(lines, k).Some? && IsSection(lines, Owner(lines, k).value, section)
  }

  /** Exactly one element is the section. */
  ghost predicate Unique(lines: seq<Line>, section: string) {
    exists e :: IsSection(lines, e, section) && forall f :: IsSection(lines, f, section) ==> f == e
  }

  /** No attribute of the section is given twice. */
  ghost predicate Distinct(lines: seq<Line>, section: string) {
    forall i, j, name, v, w :: Gives(lines, i, section, name, v) && Gives(lines, j, section, name, w) ==> i == j
  }

  ghost predicate Wellformed(lines: seq<Line>) {
    forall s <- SECTIONS :: Unique(lines, s) && Distinct(lines, s)
  }

  predicate Maps(m: map<string, string>, k: string, v: string) { k in m && m[k] == v }

  /** The map holds exactly the attributes of the section. */
  ghost predicate Holds(lines: seq<Line>, section: string, attributes: map<string, string>) {
    forall name, value :: Maps(attributes, name, value) <==> exists k :: Gives(lines, k, section, name, value)
  }

  // ---- The stack ----

  /** The stack stands for a chain of elements. */
  predicate Stands(lines: seq<Line>, chain: seq<nat>, stack: seq<(nat, string)>) {
    && |stack| == |chain|
    && forall k :: 0 <= k < |chain| ==> chain[k] < |lines| && lines[chain[k]] == Element(stack[k].0, stack[k].1)
  }

  function ChainOf(lines: seq<Line>, e: Option<nat>): seq<nat>
    requires e.Some? ==> e.value < |lines| && lines[e.value].Element?
  {
    if e.None? then [] else Chain(lines, e.value)
  }

  /** An element not below `depth` can be skipped together with what its parent skips. */
  lemma {:induction false} Skip(lines: seq<Line>, e: nat, depth: nat)
    requires e < |lines| && lines[e].Element? && lines[e].depth >= depth
    ensures var parent := Nearest(lines, e, lines[e].depth);
            Nearest(lines, e + 1, depth) == if parent.None? then None else Nearest(lines, parent.value + 1, depth)
  {
    var parent := Nearest(lines, e, lines[e].depth);
    SkipRange(lines, if parent.None? then 0 else parent.value + 1, e + 1, depth);
  }

  lemma {:induction false} SkipRange(lines: seq<Line>, m: nat, n: nat, depth: nat)
    requires m <= n <= |lines| && forall k :: m <= k < n ==> !(lines[k].Element? && lines[k].depth < depth)
    ensures Nearest(lines, n, depth) == Nearest(lines, m, depth)
    decreases n
  {
    if m < n {
      SkipRange(lines, m, n - 1, depth);
    }
  }

  lemma {:induction false} OwnerSkips(lines: seq<Line>, n: nat, depth: nat)
    requires n <= |lines|
    ensures Nearest(lines, n, depth) == if Owner(lines, n).None? then None else Nearest(lines, Owner(lines, n).value + 1, depth)
  {
    SkipRange(lines, if Owner(lines, n).None? then 0 else Owner(lines, n).value + 1, n, depth);
  }

  lemma NearestHere(lines: seq<Line>, e: nat, depth: nat)
    requires e < |lines| && lines[e].Element? && lines[e].depth < depth
    ensures Nearest(lines, e + 1, depth) == Some(e)
  {
  }

  predicate Points(lines: seq<Line>, e: Option<nat>) {
    e.Some? ==> e.value < |lines| && lines[e.value].Element?
  }

  /** The stack is the chain of an element, or empty. */
  predicate StandsFor(lines: seq<Line>, e: Option<nat>, stack: seq<(nat, string)>) {
    Points(lines, e) && Stands(lines, ChainOf(lines, e), stack)
  }

  lemma StackTop(lines: seq<Line>, e: Option<nat>, stack: seq<(nat, string)>)
    requires StandsFor(lines, e, stack)
    ensures stack == [] <==> e.None?
    ensures e.Some? ==> lines[e.value] == Element(stack[|stack| - 1].0, stack[|stack| - 1].1)
  {
  }

  /** Popping leaves the chain of the parent. */
  lemma PopOne(lines: seq<Line>, e: nat, stack: seq<(nat, string)>)
    requires StandsFor(lines, Some(e), stack)
    ensures stack != [] && StandsFor(lines, Nearest(lines, e, lines[e].depth), stack[..|stack| - 1])
  {
    var chain := Chain(lines, e);
    assert chain[..|chain| - 1] == ChainOf(lines, Nearest(lines, e, lines[e].depth));
  }

  /** Pushing an element on the chain of its parent gives its own chain. */
  lemma PushOne(lines: seq<Line>, e: nat, stack: seq<(nat, string)>)
    requires e < |lines| && lines[e].Element? && StandsFor(lines, Nearest(lines, e, lines[e].depth), stack)
    ensures StandsFor(lines, Some(e), stack + [(lines[e].depth, lines[e].name)])
  {
  }

  /** The pops of one element line: what stays is the chain of its parent. */
  method PopTo(lines: seq<Line>, n: nat, stack0: seq<(nat, string)>, depth: nat) returns (stack: seq<(nat, string)>)
    requires n <= |lines| && StandsFor(lines, Owner(lines, n), stack0)
    ensures StandsFor(lines, Nearest(lines, n, depth), stack)
  {
    hide Nearest, Owner, StandsFor;
    stack := stack0;
    OwnerSkips(lines, n, depth);
    ghost var top: Option<nat> := Owner(lines, n);
    StackTop(lines, top, stack);
    while stack != [] && stack[|stack| - 1].0 >= depth
      invariant Points(lines, top) && StandsFor(lines, top, stack)
      invariant stack == [] <==> top.None?
      invariant top.Some? ==> lines[top.value].depth == stack[|stack| - 1].0
      invariant Nearest(lines, n, depth) == if top.None? then None else Nearest(lines, top.value + 1, depth)
      decreases |stack|
    {
      Skip(lines, top.value, depth);
      PopOne(lines, top.value, stack);
      top := Nearest(lines, top.value, lines[top.value].depth);
      stack := stack[..|stack| - 1];
      StackTop(lines, top, stack);
    }
    if top.Some? {
      NearestHere(lines, top.value, depth);
    }
  }

  /** The source's test that the top of the stack is a section in its place. */
  predicate InPlace(stack: seq<(nat, string)>) {
    && stack != []
    && var name := stack[|stack| - 1].1;
       && name in SECTIONS
       && ((name == MANIFEST && |stack| == 1) || (name != MANIFEST && |stack| == 2 && stack[0].1 == MANIFEST))
  }

  lemma InPlaceMeans(lines: seq<Line>, e: nat, stack: seq<(nat, string)>)
    requires StandsFor(lines, Some(e), stack)
    ensures forall s <- SECTIONS :: IsSection(lines, e, s) <==> InPlace(stack) && s == lines[e].name
  {
    hide Chain, SECTIONS, MANIFEST, Path;
    var names := NamesOf(lines, Chain(lines, e));
    forall s <- SECTIONS
      ensures names == Path(s) <==> InPlace(stack) && s == lines[e].name
    {
      PathMeans(names, s);
    }
  }

  lemma PathMeans(names: seq<string>, s: string)
    requires names != []
    ensures names == Path(s) <==>
            && s == names[|names| - 1]
            && ((s == MANIFEST && |names| == 1) || (s != MANIFEST && |names| == 2 && names[0] == MANIFEST))
  {
    hide MANIFEST;
  }

  function Count(lines: seq<Line>, n: nat, section: string): nat
    requires n <= |lines|
  {
    if n == 0 then 0 else Count(lines, n - 1, section) + if IsSection(lines, n - 1, section) then 1 else 0
  }

  lemma {:induction false} CountMeans(lines: seq<Line>, n: nat, section: string)
    requires n <= |lines|
    ensures Count(lines, n, section) == 0 <==> forall e :: 0 <= e < n ==> !IsSection(lines, e, section)
    ensures Count(lines, n, section) == 1 <==>
            exists e :: 0 <= e < n && IsSection(lines, e, section) && forall f :: 0 <= f < n && IsSection(lines, f, section) ==> f == e
  {
    hide IsSection;
    if n > 0 {
      CountMeans(lines, n - 1, section);
      if IsSection(lines, n - 1, section) && Count(lines, n - 1, section) == 0 {
        assert IsSection(lines, n - 1, section) && forall f :: 0 <= f < n && IsSection(lines, f, section) ==> f == n - 1;
      }
      if !IsSection(lines, n - 1, section) && Count(lines, n - 1, section) == 1 {
        var e :| 0 <= e < n - 1 && IsSection(lines, e, section) && forall f :: 0 <= f < n - 1 && IsSection(lines, f, section) ==> f == e;
        assert forall f :: 0 <= f < n && IsSection(lines, f, section) ==> f == e;
      }
    }
  }

  lemma CountIsUnique(lines: seq<Line>, section: string)
    ensures Count(lines, |lines|, section) == 1 <==> Unique(lines, section)
  {
    CountMeans(lines, |lines|, section);
    if Unique(lines, section) {
      var e :| IsSection(lines, e, section) && forall f :: IsSection(lines, f, section) ==> f == e;
      assert 0 <= e < |lines|;
    }
  }

  // ---- The reader ----

  /** Some line before `n` gives the attribute. */
  ghost predicate GivenBy(lines: seq<Line>, n: nat, section: string, name: string, value: string) {
    exists k :: 0 <= k < n && Gives(lines, k, section, name, value)
  }

  /** The attributes of the section among the first `n` lines, none of them given twice. */
  ghost predicate Collected(lines: seq<Line>, n: nat, section: string, attributes: map<string, string>) {
    && (forall name, value :: Maps(attributes, name, value) <==> GivenBy(lines, n, section, name, value))
    && (forall i, j, name, v, w :: 0 <= i < n && 0 <= j < n && Gives(lines, i, section, name, v) && Gives(lines, j, section, name, w)
                                   ==> i == j)
  }

  lemma CollectNothing(lines: seq<Line>, n: nat, section: string, attributes: map<string, string>)
    requires n < |lines| && Collected(lines, n, section, attributes)
    requires forall name, value :: !Gives(lines, n, section, name, value)
    ensures Collected(lines, n + 1, section, attributes)
  {
    hide Gives;
    forall name, value
      ensures GivenBy(lines, n, section, name, value) <==> GivenBy(lines, n + 1, section, name, value)
    {
    }
  }

  lemma GivenOnce(lines: seq<Line>, n: nat, section: string, name: string, value: string, a: string, v: string)
    requires n < |lines| && Gives(lines, n, section, name, value)
    ensures GivenBy(lines, n + 1, section, a, v) <==> GivenBy(lines, n, section, a, v) || (a == name && v == value)
    ensures Gives(lines, n, section, a, v) ==> a == name && v == value
  {
  }

  lemma CollectOne(lines: seq<Line>, n: nat, section: string, attributes: map<string, string>, name: string, value: string)
    requires n < |lines| && Collected(lines, n, section, attributes)
    requires Gives(lines, n, section, name, value) && name !in attributes
    ensures Collected(lines, n + 1, section, attributes[name := value])
  {
    hide Gives, GivenBy;
    var more := attributes[name := value];
    forall a, v
      ensures Maps(more, a, v) <==> GivenBy(lines, n + 1, section, a, v)
    {
      assert Maps(attributes, a, v) <==> GivenBy(lines, n, section, a, v);
      GivenOnce(lines, n, section, name, value, a, v);
    }
    forall i, a, v | 0 <= i < n && Gives(lines, i, section, a, v)
      ensures a != name
    {
      GivenEarlier(lines, n, section, i, a, v);
      assert Maps(attributes, a, v);
    }
    forall a, v | Gives(lines, n, section, a, v)
      ensures a == name
    {
      GivenOnce(lines, n, section, name, value, a, v);
    }
  }

  lemma GivenEarlier(lines: seq<Line>, n: nat, section: string, i: nat, name: string, value: string)
    requires i < n && Gives(lines, i, section, name, value)
    ensures GivenBy(lines, n, section, name, value)
  {
  }

  lemma CollectTwice(lines: seq<Line>, n: nat, section: string, attributes: map<string, string>, name: string, value: string)
    requires n < |lines| && Collected(lines, n, section, attributes)
    requires Gives(lines, n, section, name, value) && name in attributes
    ensures !Distinct(lines, section)
  {
    hide Gives;
    assert Maps(attributes, name, attributes[name]);
    var k :| 0 <= k < n && Gives(lines, k, section, name, attributes[name]);
    assert Gives(lines, n, section, name, value) && k != n;
  }

  lemma CollectedAll(lines: seq<Line>, section: string, attributes: map<string, string>)
    requires Collected(lines, |lines|, section, attributes)
    ensures Holds(lines, section, attributes) && Distinct(lines, section)
  {
    forall name, value
      ensures GivenBy(lines, |lines|, section, name, value) <==> exists k :: Gives(lines, k, section, name, value)
    {
    }
  }

  /** The section maps are read if and only if every section is one unique element and gives no
      attribute twice; each map then holds exactly that element's attributes. */
  method SectionAttributes(lines: seq<Line>) returns (r: Option<map<string, map<string, string>>>)
    ensures r.Some? <==> Wellformed(lines)
    ensures r.Some? ==> r.value.Keys == SECTIONS && forall s <- SECTIONS :: Holds(lines, s, r.value[s])
  {
    hide Gives, IsSection, StandsFor, SECTIONS, Distinct, Unique, Owner, Nearest, InPlace, Collected, Holds;
    var stack: seq<(nat, string)> := [];
    var sections: map<string, map<string, string>> := map s | s in SECTIONS :: map[];
    var counts: map<string, nat> := map s | s in SECTIONS :: 0;
    EmptyStart(lines);
    for n := 0 to |lines|
      invariant StandsFor(lines, Owner(lines, n), stack)
      invariant sections.Keys == SECTIONS && counts.Keys == SECTIONS
      invariant forall s <- SECTIONS :: counts[s] == Count(lines, n, s)
      invariant forall s <- SECTIONS :: Collected(lines, n, s, sections[s])
    {
      if lines[n].Element? {
        stack, counts := ReadElement(lines, n, stack, counts);
        forall s <- SECTIONS
          ensures Collected(lines, n + 1, s, sections[s])
        {
          ElementGivesNothing(lines, n, s);
          CollectNothing(lines, n, s, sections[s]);
        }
      } else {
        var ok;
        ok, sections := ReadAttribute(lines, n, stack, sections);
        if !ok {
          return None;
        }
        NoElement(lines, n);
      }
    }
    forall s <- SECTIONS
      ensures Holds(lines, s, sections[s]) && Distinct(lines, s) && (Unique(lines, s) <==> counts[s] == 1)
    {
      CollectedAll(lines, s, sections[s]);
      CountIsUnique(lines, s);
    }
    if exists s <- SECTIONS :: counts[s] != 1 {
      return None;
    }
    r := Some(sections);
  }

  lemma EmptyStart(lines: seq<Line>)
    ensures StandsFor(lines, Owner(lines, 0), [])
    ensures forall s :: Collected(lines, 0, s, map[])
  {
  }

  lemma ElementGivesNothing(lines: seq<Line>, n: nat, section: string)
    requires n < |lines| && !lines[n].Attribute?
    ensures forall name, value :: !Gives(lines, n, section, name, value)
  {
  }

  lemma NoElement(lines: seq<Line>, n: nat)
    requires n < |lines| && !lines[n].Element?
    ensures Owner(lines, n + 1) == Owner(lines, n)
    ensures forall s :: Count(lines, n + 1, s) == Count(lines, n, s)
  {
  }

  /** One element line. */
  method ReadElement(lines: seq<Line>, n: nat, stack0: seq<(nat, string)>, counts0: map<string, nat>)
    returns (stack: seq<(nat, string)>, counts: map<string, nat>)
    requires n < |lines| && lines[n].Element? && StandsFor(lines, Owner(lines, n), stack0)
    requires counts0.Keys == SECTIONS && forall s <- SECTIONS :: counts0[s] == Count(lines, n, s)
    ensures StandsFor(lines, Owner(lines, n + 1), stack)
    ensures counts.Keys == SECTIONS && forall s <- SECTIONS :: counts[s] == Count(lines, n + 1, s)
  {
    hide IsSection, StandsFor, SECTIONS, Nearest;
    var depth, name := lines[n].depth, lines[n].name;
    stack := PopTo(lines, n, stack0, depth);
    PushOne(lines, n, stack);
    stack := stack + [(depth, name)];
    counts := counts0;
    InPlaceMeans(lines, n, stack);
    if InPlace(stack) {
      counts := counts[name := counts[name] + 1];
    }
  }

  /** One line that is not an element. */
  method ReadAttribute(lines: seq<Line>, n: nat, stack: seq<(nat, string)>, sections0: map<string, map<string, string>>)
    returns (ok: bool, sections: map<string, map<string, string>>)
    requires n < |lines| && !lines[n].Element? && StandsFor(lines, Owner(lines, n), stack)
    requires sections0.Keys == SECTIONS && forall s <- SECTIONS :: Collected(lines, n, s, sections0[s])
    ensures ok ==> sections.Keys == SECTIONS && forall s <- SECTIONS :: Collected(lines, n + 1, s, sections[s])
    ensures !ok ==> exists s <- SECTIONS :: !Distinct(lines, s)
  {
    hide IsSection, StandsFor, SECTIONS, Owner, Collected, Distinct, InPlace;
    ok, sections := true, sections0;
    StackTop(lines, Owner(lines, n), stack);
    if stack != [] {
      InPlaceMeans(lines, Owner(lines, n).value, stack);
    }
    if lines[n].Attribute? && stack != [] && InPlace(stack) {
      var name, value, section := lines[n].name, lines[n].value, stack[|stack| - 1].1;
      assert section in SECTIONS by { TopInPlace(stack); }
      if name in sections[section] {
        CollectTwice(lines, n, section, sections[section], name, value);
        ok := false;
        return;
      }
      CollectOne(lines, n, section, sections[section], name, value);
      sections := sections[section := sections[section][name := value]];
      forall s <- SECTIONS | s != section
        ensures Collected(lines, n + 1, s, sections[s])
      {
        CollectNothing(lines, n, s, sections0[s]);
      }
    } else {
      forall s <- SECTIONS
        ensures Collected(lines, n + 1, s, sections[s])
      {
        CollectNothing(lines, n, s, sections0[s]);
      }
    }
  }

  lemma TopInPlace(stack: seq<(nat, string)>)
    requires InPlace(stack)
    ensures stack[|stack| - 1].1 in SECTIONS
  {
  }
}
