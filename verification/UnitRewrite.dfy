/** The systemd unit rewrite (scripts/linux_background_lifecycle_plan.py, `rewrite_unit`) against
    the strict reading of a unit file as sections, directives and environment. */
module UnitRewrite {
  import opened Faults
  import opened UnitText

  const SERVICE := "Service"
  const EXEC_START := "ExecStart"
  const ENVIRONMENT := "Environment"
  const HEADLESS := "WEAVELO_HEADLESS"
  const BACKGROUND := " --background-service"
  const MAX_BYTES := 65536

  const Allowed: map<string, set<string>> := map[
    "Unit" := {"Description", "After"},
    SERVICE := {"Type", EXEC_START, "Restart", "RestartSec", ENVIRONMENT},
    "Install" := {"WantedBy"}]

  const Names: set<string> := {
    "DISPLAY", "WAYLAND_DISPLAY", "XDG_RUNTIME_DIR", "XDG_SESSION_TYPE",
    "WEAVELO_DEVICE_GROUP_DIR", HEADLESS, "WEAVELO_PASSIVE_HOST"}

  // ---- What a unit means ----

  datatype Kind = Skip | Header(section: string) | Assign(key: string, value: string) | Bad

  function KindOf(line: string): Kind {
    KindOfContent(Strip(line))
  }

  function KindOfContent(s: string): Kind {
    if s == "" || s[0] == '#' || s[0] == ';' then Skip
    else if '\\' in s then Bad
    else if s[0] == '[' then if |s| >= 2 && s[|s| - 1] == ']' then Header(s[1..|s| - 1]) else Bad
    else if '=' in s then Assign(s[..Find(s, '=')], s[Find(s, '=') + 1..])
    else Bad
  }

  predicate NameChar(c: char) { 'A' <= c <= 'Z' || c == '_' }

  predicate EntryChar(c: char) { c != '"' && c != '\\' && c != '$' && c != '%' && c >= ' ' }

  function Quoted(name: string, entry: string): string {
    "\"" + name + "=" + entry + "\""
  }

  predicate Plain(name: string, entry: string) {
    name != "" && (forall c <- name :: NameChar(c)) && (forall c <- entry :: EntryChar(c))
  }

  /** The quoted environment entry `"NAME=value"`, as name and value. */
  function Entry(value: string): (r: Option<(string, string)>)
    ensures r.Some? ==> Plain(r.value.0, r.value.1) && value == Quoted(r.value.0, r.value.1)
  {
    if |value| < 2 || value[0] != '"' || value[|value| - 1] != '"' then None
    else
      var inner := value[1..|value| - 1];
      var i := Find(inner, '=');
      if i < |inner| && Plain(inner[..i], inner[i + 1..]) then
        assert inner == inner[..i] + "=" + inner[i + 1..];
        Some((inner[..i], inner[i + 1..]))
      else None
  }

  /** The entry is found exactly when the value has that form. */
  lemma EntryOfQuoted(name: string, entry: string)
    requires Plain(name, entry)
    ensures Entry(Quoted(name, entry)) == Some((name, entry))
  {
    var inner := name + "=" + entry;
    assert Quoted(name, entry)[1..|Quoted(name, entry)| - 1] == inner;
    FindAfter(name, '=', entry);
    assert inner == name + ['='] + entry;
    assert inner[..|name|] == name && inner[|name| + 1..] == entry;
  }

  /** The reading of the lines so far. */
  datatype Unit = Unit(
    section: Option<string>, sections: set<string>, directives: map<(string, string), string>, environment: map<string, string>)

  function Read(u: Unit, line: string): Option<Unit> {
    match KindOf(line)
    case Skip => Some(u)
    case Bad => None
    case Header(section) =>
      if section in Allowed && section !in u.sections then Some(u.(section := Some(section), sections := u.sections + {section}))
      else None
    case Assign(key, value) =>
      if u.section.None? || u.section.value !in Allowed || key !in Allowed[u.section.value] then None
      else if key == ENVIRONMENT then
        var e := Entry(value);
        if e.None? || e.value.0 !in Names || e.value.0 in u.environment then None
        else Some(u.(environment := u.environment[e.value.0 := e.value.1]))
      else if (u.section.value, key) in u.directives then None
      else Some(u.(directives := u.directives[(u.section.value, key) := value]))
  }

  function Parse(lines: seq<string>): Option<Unit> {
    if lines == [] then Some(Unit(None, {}, map[], map[]))
    else
      var before := Parse(lines[..|lines| - 1]);
      if before.None? then None else Read(before.value, lines[|lines| - 1])
  }

  predicate Maps<K, V(==)>(m: map<K, V>, k: K, v: V) { k in m && m[k] == v }

  /** The original desktop service policy. */
  predicate Policy(u: Unit, executable: string, profile: string) {
    && u.sections == Allowed.Keys
    && Maps(u.directives, (SERVICE, "Type"), "simple")
    && Maps(u.directives, (SERVICE, EXEC_START), executable)
    && Maps(u.directives, (SERVICE, "Restart"), "on-failure")
    && Maps(u.directives, (SERVICE, "RestartSec"), "3")
    && Maps(u.directives, ("Unit", "After"), "graphical-session.target")
    && Maps(u.directives, ("Install", "WantedBy"), "default.target")
    && Maps(u.environment, "WEAVELO_DEVICE_GROUP_DIR", profile)
    && Maps(u.environment, HEADLESS, "0")
    && Maps(u.environment, "WEAVELO_PASSIVE_HOST", "0")
  }

  predicate Encoded(text: string) {
    0 < ByteLength(text) <= MAX_BYTES && '\r' !in text && '\0' !in text && text != "" && text[|text| - 1] == '\n'
  }

  ghost predicate Acceptable(text: string, executable: string, profile: string) {
    Encoded(text) && Parse(Lines(text)).Some? && Policy(Parse(Lines(text)).value, executable, profile)
  }

  // ---- The declarative meaning of a reading ----

  /** The section in effect at line `i`: the last header before it. */
  ghost predicate InSection(lines: seq<string>, i: int, section: string) {
    exists h :: 0 <= h < i <= |lines| && KindOf(lines[h]) == Header(section)
                && forall k :: h < k < i ==> !KindOf(lines[k]).Header?
  }

  ghost predicate Assigns(lines: seq<string>, i: int, section: string, key: string, value: string) {
    0 <= i < |lines| && KindOf(lines[i]) == Assign(key, value) && InSection(lines, i, section)
  }

  lemma ParseInit(lines: seq<string>, i: nat)
    requires i < |lines|
    ensures Parse(lines[..i + 1]) == if Parse(lines[..i]).None? then None else Read(Parse(lines[..i]).value, lines[i])
  {
    assert lines[..i + 1][..i] == lines[..i];
  }

  ghost predicate Extends(v: Unit, u: Unit) {
    && (forall k <- u.directives :: Maps(v.directives, k, u.directives[k]))
    && (forall k <- u.environment :: Maps(v.environment, k, u.environment[k]))
  }

  lemma ReadGrows(u: Unit, line: string)
    requires Read(u, line).Some?
    ensures Extends(Read(u, line).value, u)
  {
    hide KindOf, Entry, Allowed, Names;
  }

  /** What was read stays read. */
  lemma {:induction false} ParseGrows(lines: seq<string>, i: nat)
    requires i <= |lines| && Parse(lines).Some?
    ensures Parse(lines[..i]).Some?
    ensures Extends(Parse(lines).value, Parse(lines[..i]).value)
    decreases |lines|
  {
    hide Read;
    if i < |lines| {
      ReadGrows(Parse(lines[..|lines| - 1]).value, lines[|lines| - 1]);
      ParseGrows(lines[..|lines| - 1], i);
      assert lines[..|lines| - 1][..i] == lines[..i];
    } else {
      assert lines[..i] == lines;
    }
  }

  /** Later lines change nothing about earlier ones. */
  lemma AssignsInPrefix(lines: seq<string>, n: nat, i: int, section: string, key: string, value: string)
    requires i < n <= |lines|
    ensures Assigns(lines[..n], i, section, key, value) <==> Assigns(lines, i, section, key, value)
  {
    hide KindOf;
    if Assigns(lines, i, section, key, value) {
      var h :| 0 <= h < i <= |lines| && KindOf(lines[h]) == Header(section) && forall k :: h < k < i ==> !KindOf(lines[k]).Header?;
      assert KindOf(lines[..n][h]) == Header(section);
      assert InSection(lines[..n], i, section);
    }
    if Assigns(lines[..n], i, section, key, value) {
      var h :| 0 <= h < i <= n && KindOf(lines[..n][h]) == Header(section) && forall k :: h < k < i ==> !KindOf(lines[..n][k]).Header?;
      assert KindOf(lines[h]) == Header(section);
      assert forall k :: h < k < i ==> lines[k] == lines[..n][k];
      assert InSection(lines, i, section);
    }
  }

  /** The section a reading is in is the section in effect. */
  lemma {:induction false} SectionMeaning(lines: seq<string>, section: string)
    requires Parse(lines).Some?
    ensures Parse(lines).value.section == Some(section) <==> InSection(lines, |lines|, section)
    decreases |lines|
  {
    hide KindOf, Entry, Maps;
    if lines != [] {
      var rest, last := lines[..|lines| - 1], lines[|lines| - 1];
      SectionMeaning(rest, section);
      if KindOf(last).Header? {
        assert KindOf(lines[|lines| - 1]).Header?;
      } else {
        if InSection(rest, |rest|, section) {
          var h :| 0 <= h < |rest| && KindOf(rest[h]) == Header(section) && forall k :: h < k < |rest| ==> !KindOf(rest[k]).Header?;
          assert KindOf(lines[h]) == Header(section);
          assert forall k :: h < k < |rest| ==> lines[k] == rest[k];
        }
        if InSection(lines, |lines|, section) {
          var h :| 0 <= h < |lines| && KindOf(lines[h]) == Header(section) && forall k :: h < k < |lines| ==> !KindOf(lines[k]).Header?;
          assert KindOf(rest[h]) == Header(section);
          assert forall k :: h < k < |rest| ==> lines[k] == rest[k];
        }
      }
    }
  }

  /** Some line assigns the value. */
  ghost predicate Assigned(lines: seq<string>, section: string, key: string, value: string) {
    exists i :: Assigns(lines, i, section, key, value)
  }

  lemma AssignedLast(lines: seq<string>, section: string, key: string, value: string)
    requires lines != []
    ensures Assigned(lines, section, key, value) <==>
            Assigned(lines[..|lines| - 1], section, key, value) || Assigns(lines, |lines| - 1, section, key, value)
  {
    hide KindOf, InSection;
    var n := |lines| - 1;
    if Assigned(lines, section, key, value) {
      var i :| Assigns(lines, i, section, key, value);
      if i < n {
        AssignsInPrefix(lines, n, i, section, key, value);
      }
    }
    if Assigned(lines[..n], section, key, value) {
      var i :| Assigns(lines[..n], i, section, key, value);
      AssignsInPrefix(lines, n, i, section, key, value);
    }
  }

  lemma AssignsLast(lines: seq<string>, section: string, key: string, value: string)
    requires lines != [] && Parse(lines[..|lines| - 1]).Some?
    ensures Assigns(lines, |lines| - 1, section, key, value) <==>
            KindOf(lines[|lines| - 1]) == Assign(key, value) && Parse(lines[..|lines| - 1]).value.section == Some(section)
  {
    hide KindOf, Parse;
    var n := |lines| - 1;
    SectionMeaning(lines[..n], section);
    if InSection(lines, n, section) {
      var h :| 0 <= h < n && KindOf(lines[h]) == Header(section) && forall k :: h < k < n ==> !KindOf(lines[k]).Header?;
      assert KindOf(lines[..n][h]) == Header(section);
    }
    if InSection(lines[..n], n, section) {
      var h :| 0 <= h < n && KindOf(lines[..n][h]) == Header(section) && forall k :: h < k < n ==> !KindOf(lines[..n][k]).Header?;
      assert KindOf(lines[h]) == Header(section);
      assert forall k :: h < k < n ==> lines[k] == lines[..n][k];
    }
  }

  /** A directive of a readable unit has a value exactly when some line of its section sets it. */
  lemma {:induction false} DirectiveMeaning(lines: seq<string>, section: string, key: string, value: string)
    requires Parse(lines).Some? && key != ENVIRONMENT
    ensures Maps(Parse(lines).value.directives, (section, key), value) <==> Assigned(lines, section, key, value)
    decreases |lines|
  {
    hide KindOf, Entry, InSection;
    if lines != [] {
      DirectiveMeaning(lines[..|lines| - 1], section, key, value);
      AssignedLast(lines, section, key, value);
      AssignsLast(lines, section, key, value);
      hide Assigns, Assigned;
    }
  }

  /** A variable of a readable unit has a value exactly when some line sets it. */
  lemma {:induction false} EnvironmentMeaning(lines: seq<string>, name: string, entry: string)
    requires Parse(lines).Some? && Plain(name, entry)
    ensures Maps(Parse(lines).value.environment, name, entry) <==> Assigned(lines, SERVICE, ENVIRONMENT, Quoted(name, entry))
    decreases |lines|
  {
    hide KindOf, Entry, InSection, Quoted, Plain;
    if lines != [] {
      EnvironmentMeaning(lines[..|lines| - 1], name, entry);
      AssignedLast(lines, SERVICE, ENVIRONMENT, Quoted(name, entry));
      AssignsLast(lines, SERVICE, ENVIRONMENT, Quoted(name, entry));
      EntryOfQuoted(name, entry);
      OnlyServiceHasEnvironment();
      hide Assigns, Assigned;
    }
  }

  lemma OnlyServiceHasEnvironment()
    ensures forall s <- Allowed :: ENVIRONMENT in Allowed[s] <==> s == SERVICE
    ensures forall s <- Allowed :: EXEC_START in Allowed[s] <==> s == SERVICE
  {
  }

  /** A section was seen exactly when some line is its header. */
  lemma {:induction false} SectionsMeaning(lines: seq<string>, section: string)
    requires Parse(lines).Some?
    ensures section in Parse(lines).value.sections <==> exists i :: 0 <= i < |lines| && KindOf(lines[i]) == Header(section)
    ensures section in Parse(lines).value.sections ==> section in Allowed
    decreases |lines|
  {
    hide KindOf, Entry, Names;
    if lines != [] {
      var rest, last := lines[..|lines| - 1], lines[|lines| - 1];
      SectionsMeaning(rest, section);
      if exists i :: 0 <= i < |rest| && KindOf(rest[i]) == Header(section) {
        var i :| 0 <= i < |rest| && KindOf(rest[i]) == Header(section);
        assert KindOf(lines[i]) == Header(section);
      }
      if KindOf(last) == Header(section) {
        assert KindOf(lines[|lines| - 1]) == Header(section);
      }
      if exists i :: 0 <= i < |lines| && KindOf(lines[i]) == Header(section) {
        var i :| 0 <= i < |lines| && KindOf(lines[i]) == Header(section);
        assert i < |rest| ==> KindOf(rest[i]) == Header(section);
      }
    }
  }

  ghost predicate HasHeader(lines: seq<string>, section: string) {
    exists i :: 0 <= i < |lines| && KindOf(lines[i]) == Header(section)
  }

  /** The desktop policy in terms of the lines of the unit. */
  ghost predicate Desktop(lines: seq<string>, executable: string, profile: string) {
    && HasHeader(lines, "Unit") && HasHeader(lines, "Service") && HasHeader(lines, "Install")
    && Assigned(lines, "Service", "Type", "simple")
    && Assigned(lines, "Service", "ExecStart", executable)
    && Assigned(lines, "Service", "Restart", "on-failure")
    && Assigned(lines, "Service", "RestartSec", "3")
    && Assigned(lines, "Unit", "After", "graphical-session.target")
    && Assigned(lines, "Install", "WantedBy", "default.target")
    && Plain("WEAVELO_DEVICE_GROUP_DIR", profile)
    && Assigned(lines, "Service", "Environment", Quoted("WEAVELO_DEVICE_GROUP_DIR", profile))
    && Assigned(lines, "Service", "Environment", Quoted("WEAVELO_HEADLESS", "0"))
    && Assigned(lines, "Service", "Environment", Quoted("WEAVELO_PASSIVE_HOST", "0"))
  }

  /** What is accepted, line by line: a readable unit follows the policy if and only if its lines set
      exactly these values. */
  lemma PolicyMeaning(lines: seq<string>, executable: string, profile: string)
    requires Parse(lines).Some?
    ensures Policy(Parse(lines).value, executable, profile) <==> Desktop(lines, executable, profile)
  {
    hide Parse, Assigned, Quoted, KindOf, Entry;
    SectionsAreThree(lines);
    DirectiveMeaning(lines, "Service", "Type", "simple");
    DirectiveMeaning(lines, "Service", "ExecStart", executable);
    DirectiveMeaning(lines, "Service", "Restart", "on-failure");
    DirectiveMeaning(lines, "Service", "RestartSec", "3");
    DirectiveMeaning(lines, "Unit", "After", "graphical-session.target");
    DirectiveMeaning(lines, "Install", "WantedBy", "default.target");
    EnvironmentIsPlain(lines);
    PolicyNamesArePlain();
    EnvironmentMeaning(lines, "WEAVELO_HEADLESS", "0");
    EnvironmentMeaning(lines, "WEAVELO_PASSIVE_HOST", "0");
    if Plain("WEAVELO_DEVICE_GROUP_DIR", profile) {
      EnvironmentMeaning(lines, "WEAVELO_DEVICE_GROUP_DIR", profile);
    }
    hide Plain, HasHeader;
  }

  lemma PolicyNamesArePlain()
    ensures Plain("WEAVELO_HEADLESS", "0") && Plain("WEAVELO_PASSIVE_HOST", "0")
  {
  }

  lemma SectionsAreThree(lines: seq<string>)
    requires Parse(lines).Some?
    ensures Parse(lines).value.sections == Allowed.Keys <==>
            HasHeader(lines, "Unit") && HasHeader(lines, "Service") && HasHeader(lines, "Install")
  {
    hide Parse, KindOf;
    forall s
      ensures s in Parse(lines).value.sections <==> HasHeader(lines, s)
      ensures s in Parse(lines).value.sections ==> s in Allowed
    {
      SectionsMeaning(lines, s);
    }
    assert Allowed.Keys == {"Unit", "Service", "Install"};
  }

  /** Every value of a variable that was read has the accepted form. */
  lemma {:induction false} EnvironmentIsPlain(lines: seq<string>)
    requires Parse(lines).Some?
    ensures forall name <- Parse(lines).value.environment :: Plain(name, Parse(lines).value.environment[name])
    decreases |lines|
  {
    hide KindOf, Plain;
    if lines != [] {
      EnvironmentIsPlain(lines[..|lines| - 1]);
    }
  }

  // ---- The rewrite ----

  const HEADLESS_LINE := "Environment=\"WEAVELO_HEADLESS=1\"\n"

  function StartLine(executable: string): string {
    EXEC_START + "=" + executable + BACKGROUND + "\n"
  }

  /** The one change of meaning: the start command and the headless flag. */
  function Migrated(u: Unit, executable: string): Unit {
    u.(directives := if (SERVICE, EXEC_START) in u.directives
                     then u.directives[(SERVICE, EXEC_START) := executable + BACKGROUND] else u.directives,
       environment := if HEADLESS in u.environment then u.environment[HEADLESS := "1"] else u.environment)
  }

  predicate SetsStart(line: string, executable: string) {
    KindOf(line) == Assign(EXEC_START, executable)
  }

  predicate SetsHeadless(line: string) {
    KindOf(line) == Assign(ENVIRONMENT, Quoted(HEADLESS, "0"))
  }

  function NewLine(line: string, executable: string): string {
    if SetsStart(line, executable) then StartLine(executable) else if SetsHeadless(line) then HEADLESS_LINE else line
  }

  /** The start command of a readable line has no escape and no line boundary. */
  lemma ValueIsClean(line: string, key: string, value: string)
    requires Terminated(line) && KindOf(line) == Assign(key, value)
    ensures '\\' !in value && OneLine(value)
  {
    hide Boundary, Strip;
    StripWithinLine(line);
    var s := Strip(line);
    assert forall k :: 0 <= k < |value| ==> value[k] == s[Find(s, '=') + 1 + k];
  }

  lemma KindOfAssignment(key: string, value: string)
    requires key != "" && value != "" && !Space(key[0]) && !Space(value[|value| - 1])
    requires key[0] != '#' && key[0] != ';' && key[0] != '[' && '=' !in key && '\\' !in key && '\\' !in value
    ensures KindOf(key + "=" + value + "\n") == Assign(key, value)
  {
    hide Space, KindOfContent, Strip;
    var body := key + ['='] + value;
    assert body[0] == key[0] && body[|body| - 1] == value[|value| - 1];
    StripSolid(body);
    ContentOfAssignment(key, value);
    assert key + "=" + value + "\n" == body + "\n";
  }

  lemma ContentOfAssignment(key: string, value: string)
    requires key != "" && key[0] != '#' && key[0] != ';' && key[0] != '[' && '=' !in key && '\\' !in key && '\\' !in value
    ensures KindOfContent(key + ['='] + value) == Assign(key, value)
  {
    var body := key + ['='] + value;
    FindAfter(key, '=', value);
    hide Find;
    assert body[0] == key[0];
    assert body[..|key|] == key && body[|key| + 1..] == value;
  }

  predicate OneLine(s: string) { forall c <- s :: !Boundary(c) }

  lemma LineOf(body: string)
    requires OneLine(body)
    ensures Terminated(body + "\n")
  {
    assert forall k :: 0 <= k < |body| ==> (body + "\n")[k] == body[k];
  }

  predicate Visible(s: string) { forall c <- s :: '!' <= c <= '~' && c != '\\' }

  lemma VisibleIsOneLine(s: string)
    requires Visible(s)
    ensures OneLine(s) && '\\' !in s
  {
  }

  lemma ConstantsAreClean()
    ensures OneLine(EXEC_START) && '=' !in EXEC_START && '\\' !in EXEC_START
    ensures OneLine(BACKGROUND) && '\\' !in BACKGROUND && BACKGROUND[|BACKGROUND| - 1] == 'e'
    ensures OneLine(ENVIRONMENT) && '=' !in ENVIRONMENT && '\\' !in ENVIRONMENT
  {
    hide Boundary;
    LettersAreSolid();
    VisibleIsOneLine(EXEC_START);
    VisibleIsOneLine(ENVIRONMENT);
    VisibleIsOneLine(BACKGROUND[1..]);
    assert BACKGROUND == [' '] + BACKGROUND[1..];
  }

  lemma StartLineReads(line: string, executable: string)
    requires Terminated(line) && SetsStart(line, executable)
    ensures KindOf(StartLine(executable)) == Assign(EXEC_START, executable + BACKGROUND) && Terminated(StartLine(executable))
  {
    hide KindOf, Space, Boundary;
    ValueIsClean(line, EXEC_START, executable);
    ConstantsAreClean();
    assert !Space('E') && !Space('e') && !Boundary('=') by { LettersAreSolid(); }
    var value := executable + BACKGROUND;
    KindOfAssignment(EXEC_START, value);
    assert StartLine(executable) == EXEC_START + "=" + value + "\n";
    LineOf(EXEC_START + "=" + value);
  }

  lemma LettersAreSolid()
    ensures !Space('E') && !Space('e') && !Space('"') && !Boundary('=') && !Boundary(' ')
  {
  }

  lemma HeadlessValue()
    ensures Quoted(HEADLESS, "1") == "\"WEAVELO_HEADLESS=1\"" && OneLine(Quoted(HEADLESS, "1")) && '\\' !in Quoted(HEADLESS, "1")
  {
    hide Boundary, OneLine;
    assert Quoted(HEADLESS, "1") == "\"WEAVELO_HEADLESS=1\"";
    VisibleIsOneLine(Quoted(HEADLESS, "1"));
  }

  lemma HeadlessIsPlain()
    ensures Plain(HEADLESS, "1") && Plain(HEADLESS, "0")
  {
  }

  lemma HeadlessLineReads()
    ensures KindOf(HEADLESS_LINE) == Assign(ENVIRONMENT, Quoted(HEADLESS, "1")) && Terminated(HEADLESS_LINE)
  {
    hide KindOf, Space, Boundary;
    var value := Quoted(HEADLESS, "1");
    HeadlessValue();
    ConstantsAreClean();
    LettersAreSolid();
    KindOfAssignment(ENVIRONMENT, value);
    assert HEADLESS_LINE == ENVIRONMENT + "=" + value + "\n";
    LineOf(ENVIRONMENT + "=" + value);
  }

  lemma HeadlessEntries()
    ensures Entry(Quoted(HEADLESS, "1")) == Some((HEADLESS, "1"))
    ensures Entry(Quoted(HEADLESS, "0")) == Some((HEADLESS, "0"))
  {
    hide Entry, Quoted;
    HeadlessIsPlain();
    EntryOfQuoted(HEADLESS, "1");
    EntryOfQuoted(HEADLESS, "0");
  }

  /** So far the start command is the expected one and the flag is off. */
  predicate Unmigrated(u: Unit, executable: string) {
    && ((SERVICE, EXEC_START) in u.directives ==> u.directives[(SERVICE, EXEC_START)] == executable)
    && (HEADLESS in u.environment ==> u.environment[HEADLESS] == "0")
  }

  /** Rewriting a line and reading it is reading it and migrating the meaning. */
  lemma ReadNewLine(u: Unit, line: string, executable: string)
    requires Terminated(line) && Read(u, line).Some? && Unmigrated(Read(u, line).value, executable)
    ensures Terminated(NewLine(line, executable))
    ensures Read(Migrated(u, executable), NewLine(line, executable)) == Some(Migrated(Read(u, line).value, executable))
  {
    hide KindOf, Entry, Terminated;
    OnlyServiceHasEnvironment();
    if SetsStart(line, executable) {
      StartLineReads(line, executable);
      var d, start := u.directives, (SERVICE, EXEC_START);
      assert d[start := executable][start := executable + BACKGROUND] == d[start := executable + BACKGROUND];
    } else if SetsHeadless(line) {
      HeadlessLineReads();
      HeadlessEntries();
      assert u.environment[HEADLESS := "0"][HEADLESS := "1"] == u.environment[HEADLESS := "1"];
    } else {
      OtherLineReads(u, line, executable);
    }
  }

  lemma MapUpdatesCommute<K, V>(m: map<K, V>, k: K, v: V, l: K, w: V)
    ensures k != l ==> m[k := v][l := w] == m[l := w][k := v]
  {
  }

  /** A line that is neither of the two is read the same way before and after. */
  lemma OtherLineReads(u: Unit, line: string, executable: string)
    requires Read(u, line).Some? && Unmigrated(Read(u, line).value, executable)
    requires !SetsStart(line, executable) && !SetsHeadless(line)
    ensures Read(Migrated(u, executable), line) == Some(Migrated(Read(u, line).value, executable))
  {
    hide KindOf, Allowed, Names;
    OnlyServiceHasEnvironment();
    match KindOf(line)
    case Assign(key, value) =>
      if key == ENVIRONMENT {
        var e := Entry(value).value;
        MapUpdatesCommute(u.environment, e.0, e.1, HEADLESS, "1");
      } else {
        hide Entry;
        MapUpdatesCommute(u.directives, (u.section.value, key), value, (SERVICE, EXEC_START), executable + BACKGROUND);
      }
    case _ =>
  }

  lemma {:induction false} ParseNewLines(lines: seq<string>, out: seq<string>, executable: string)
    requires |out| == |lines| && Parse(lines).Some? && Unmigrated(Parse(lines).value, executable)
    requires forall i :: 0 <= i < |lines| ==> Terminated(lines[i]) && out[i] == NewLine(lines[i], executable)
    ensures Parse(out) == Some(Migrated(Parse(lines).value, executable))
    ensures forall i :: 0 <= i < |out| ==> Terminated(out[i])
    decreases |lines|
  {
    hide Terminated, NewLine, Read;
    if lines != [] {
      var n := |lines| - 1;
      ParseGrows(lines, n);
      ParseNewLines(lines[..n], out[..n], executable);
      ReadNewLine(Parse(lines[..n]).value, lines[n], executable);
      assert forall i :: 0 <= i < n ==> out[i] == out[..n][i];
    }
  }

  /** Exactly two lines differ: the start command and the headless flag. */
  predicate OnlyTheseChange(before: seq<string>, after: seq<string>, start: nat, headless: nat, executable: string) {
    && |after| == |before| && start < |before| && headless < |before| && start != headless
    && SetsStart(before[start], executable) && after[start] == StartLine(executable)
    && SetsHeadless(before[headless]) && after[headless] == HEADLESS_LINE
    && forall i :: 0 <= i < |before| && i != start && i != headless ==> after[i] == before[i]
  }

  /** A readable line that sets one of the two takes its place in the meaning, which was free. */
  lemma TakesPlace(u: Unit, line: string, executable: string)
    requires Read(u, line).Some?
    ensures var v := Read(u, line).value;
            && (SetsStart(line, executable) ==> (SERVICE, EXEC_START) !in u.directives && (SERVICE, EXEC_START) in v.directives)
            && (SetsHeadless(line) ==> HEADLESS !in u.environment && HEADLESS in v.environment)
  {
    hide KindOf, Entry, Names;
    OnlyServiceHasEnvironment();
    HeadlessEntries();
  }

  /** A readable unit has at most one start command and one headless flag. */
  lemma AtMostOnce(lines: seq<string>, i: nat, j: nat, executable: string)
    requires Parse(lines).Some? && i < j < |lines|
    ensures !(SetsStart(lines[i], executable) && SetsStart(lines[j], executable))
    ensures !(SetsHeadless(lines[i]) && SetsHeadless(lines[j]))
  {
    hide Parse, Read, SetsStart, SetsHeadless;
    ParseGrows(lines, i);
    ParseGrows(lines, i + 1);
    ParseGrows(lines, j);
    ParseGrows(lines, j + 1);
    ParseGrows(lines[..j], i + 1);
    assert lines[..j][..i + 1] == lines[..i + 1];
    ParseInit(lines, i);
    ParseInit(lines, j);
    TakesPlace(Parse(lines[..i]).value, lines[i], executable);
    TakesPlace(Parse(lines[..j]).value, lines[j], executable);
  }

  lemma FindTheTwo(lines: seq<string>, executable: string, profile: string) returns (start: nat, headless: nat)
    requires Parse(lines).Some? && Policy(Parse(lines).value, executable, profile)
    ensures start < |lines| && SetsStart(lines[start], executable)
    ensures headless < |lines| && SetsHeadless(lines[headless])
  {
    hide KindOf, Parse, Quoted, Plain, InSection;
    DirectiveMeaning(lines, SERVICE, EXEC_START, executable);
    HeadlessIsPlain();
    EnvironmentMeaning(lines, HEADLESS, "0");
    var i :| Assigns(lines, i, SERVICE, EXEC_START, executable);
    var j :| Assigns(lines, j, SERVICE, ENVIRONMENT, Quoted(HEADLESS, "0"));
    start, headless := i, j;
  }

  lemma TwoLinesChange(lines: seq<string>, out: seq<string>, executable: string, profile: string) returns (start: nat, headless: nat)
    requires Parse(lines).Some? && Policy(Parse(lines).value, executable, profile) && |out| == |lines|
    requires forall i :: 0 <= i < |lines| ==> out[i] == NewLine(lines[i], executable)
    ensures OnlyTheseChange(lines, out, start, headless, executable)
  {
    hide KindOf, Parse, Policy;
    start, headless := FindTheTwo(lines, executable, profile);
    forall i | 0 <= i < |lines|
      ensures SetsStart(lines[i], executable) ==> i == start
      ensures SetsHeadless(lines[i]) ==> i == headless
    {
      if i < start { AtMostOnce(lines, i, start, executable); }
      if start < i { AtMostOnce(lines, start, i, executable); }
      if i < headless { AtMostOnce(lines, i, headless, executable); }
      if headless < i { AtMostOnce(lines, headless, i, executable); }
    }
  }

  /** What one line showed to be unacceptable, no later line repairs. */
  lemma NeverAcceptable(lines: seq<string>, i: nat, executable: string, profile: string)
    requires i <= |lines|
    requires Parse(lines[..i]).None? || !Unmigrated(Parse(lines[..i]).value, executable)
    ensures Parse(lines).None? || !Policy(Parse(lines).value, executable, profile)
  {
    hide Parse;
    if Parse(lines).Some? {
      ParseGrows(lines, i);
    }
  }

  /** A migrated meaning follows no desktop policy. */
  lemma MigratedIsRefused(u: Unit, executable: string, e: string, p: string)
    requires HEADLESS in u.environment
    ensures !Policy(Migrated(u, executable), e, p)
  {
    assert "0" != "1";
  }

  /** `rewrite_unit`. A unit is accepted if and only if it is readable and follows the original
      desktop policy; then exactly two lines change, the meaning changes in exactly those two
      values, and no second rewrite is accepted, for whatever executable and profile. */
  method RewriteUnit(text: string, executable: string, profile: string) returns (r: Option<string>)
    ensures r.Some? <==> Acceptable(text, executable, profile)
    ensures r.Some? ==> Parse(Lines(r.value)) == Some(Migrated(Parse(Lines(text)).value, executable))
    ensures r.Some? ==> exists start, headless :: OnlyTheseChange(Lines(text), Lines(r.value), start, headless, executable)
    ensures r.Some? ==> forall e, p :: !Acceptable(r.value, e, p)
  {
    hide KindOf, Entry, Lines, ByteLength, Terminated, Policy, Read, NewLine, Migrated, Unmigrated;
    if !Encoded(text) {
      return None;
    }
    var lines := Lines(text);
    LinesTerminated(text) by { assert Boundary('\n'); }
    var ok, out, u := RewriteLines(lines, executable, profile);
    if !ok || !Policy(u, executable, profile) {
      return None;
    }
    ParseNewLines(lines, out, executable);
    var start, headless := TwoLinesChange(lines, out, executable, profile);
    LinesConcat(out);
    r := Some(Concat(out));
    assert OnlyTheseChange(lines, Lines(r.value), start, headless, executable);
    forall e, p
      ensures !Policy(Migrated(u, executable), e, p)
    {
      PolicyKnows(u, executable, profile);
      MigratedIsRefused(u, executable, e, p);
    }
  }

  lemma PolicyKnows(u: Unit, executable: string, profile: string)
    requires Policy(u, executable, profile)
    ensures HEADLESS in u.environment
  {
  }

  /** The loop over the lines. It stops at the first line that no policy could accept. */
  method RewriteLines(lines: seq<string>, executable: string, profile: string) returns (ok: bool, out: seq<string>, u: Unit)
    ensures ok ==> Parse(lines) == Some(u) && Unmigrated(u, executable)
    ensures ok ==> |out| == |lines| && forall k :: 0 <= k < |lines| ==> out[k] == NewLine(lines[k], executable)
    ensures !ok ==> Parse(lines).None? || !Policy(Parse(lines).value, executable, profile)
  {
    hide KindOf, Entry, Policy, Read, NewLine;
    out := [];
    var section: Option<string>, sections: set<string> := None, {};
    var seen: map<(string, string), string>, environment: map<string, string> := map[], map[];
    u := Unit(section, sections, seen, environment);
    for i := 0 to |lines|
      invariant |out| == i && forall k :: 0 <= k < i ==> out[k] == NewLine(lines[k], executable)
      invariant u == Unit(section, sections, seen, environment)
      invariant Parse(lines[..i]) == Some(u) && Unmigrated(u, executable)
    {
      ParseInit(lines, i);
      var line;
      ok, line, section, sections, seen, environment := RewriteLine(lines[i], executable, section, sections, seen, environment);
      if !ok {
        NeverAcceptable(lines, i + 1, executable, profile);
        return;
      }
      out, u := out + [line], Unit(section, sections, seen, environment);
    }
    assert lines[..|lines|] == lines;
    ok := true;
  }

  /** One turn of the loop. */
  method RewriteLine(line0: string, executable: string, section0: Option<string>, sections0: set<string>,
                     seen0: map<(string, string), string>, environment0: map<string, string>)
    returns (ok: bool, line: string, section: Option<string>, sections: set<string>,
             seen: map<(string, string), string>, environment: map<string, string>)
    requires Unmigrated(Unit(section0, sections0, seen0, environment0), executable)
    ensures var before := Unit(section0, sections0, seen0, environment0);
            var after := Read(before, line0);
            && (ok <==> after.Some? && Unmigrated(after.value, executable))
            && (ok ==> after == Some(Unit(section, sections, seen, environment)) && line == NewLine(line0, executable))
  {
    hide KindOf, Entry;
    OnlyServiceHasEnvironment();
    HeadlessEntries();
    ok, line, section, sections, seen, environment := true, line0, section0, sections0, seen0, environment0;
    match KindOf(line0) {
      case Skip =>
      case Bad =>
        ok := false;
      case Header(name) =>
        section := Some(name);
        ok := name in Allowed && name !in sections;
        sections := sections + {name};
      case Assign(key, value) =>
        if section.None? || section.value !in Allowed || key !in Allowed[section.value] {
          ok := false;
        } else if key == ENVIRONMENT {
          var e := Entry(value);
          if e.None? || e.value.0 !in Names || e.value.0 in environment {
            ok := false;
            return;
          }
          environment := environment[e.value.0 := e.value.1];
          if e.value.0 == HEADLESS {
            ok := e.value.1 == "0";
            line := HEADLESS_LINE;
          }
        } else if (section.value, key) in seen {
          ok := false;
        } else {
          seen := seen[(section.value, key) := value];
          if key == EXEC_START {
            ok := value == executable;
            line := StartLine(executable);
          }
        }
    }
  }
}
