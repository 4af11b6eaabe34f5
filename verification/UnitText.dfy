/** Text as Python sees it: `splitlines(keepends=True)`, `strip` and first occurrences. */
module UnitText {

  /** `str.splitlines` boundaries, without the carriage return, which units may not contain. */
  predicate Boundary(c: char) {
    || c == '\n' || c == '\U{0B}' || c == '\U{0C}' || c == '\U{1C}' || c == '\U{1D}' || c == '\U{1E}'
    || c == '\U{85}' || c == '\U{2028}' || c == '\U{2029}'
  }

  /** `str.isspace`. */
  predicate Space(c: char) {
    || Boundary(c) || c == '\t' || c == '\r' || c == '\U{1F}' || c == ' ' || c == '\U{A0}' || c == '\U{1680}'
    || '\U{2000}' <= c <= '\U{200A}' || c == '\U{202F}' || c == '\U{205F}' || c == '\U{3000}'
  }

  /** A whole line: its one boundary is its last character. */
  predicate Terminated(line: string) {
    |line| > 0 && Boundary(line[|line| - 1]) && forall k :: 0 <= k < |line| - 1 ==> !Boundary(line[k])
  }

  /** Index of the first boundary, or the length. */
  function LineEnd(s: string): (i: nat)
    ensures i <= |s| && (i < |s| ==> Boundary(s[i]))
    ensures forall k :: 0 <= k < i ==> !Boundary(s[k])
  {
    if |s| == 0 || Boundary(s[0]) then 0
    else
      var i := LineEnd(s[1..]);
      assert forall k :: 0 < k < i + 1 ==> s[k] == s[1..][k - 1];
      i + 1
  }

  function Lines(s: string): seq<string>
    decreases |s|
  {
    var end := LineEnd(s);
    if end >= |s| - 1 then if s == "" then [] else [s] else [s[..end + 1]] + Lines(s[end + 1..])
  }

  function Concat(lines: seq<string>): string {
    if lines == [] then "" else lines[0] + Concat(lines[1..])
  }

  lemma {:induction false} ConcatLines(s: string)
    ensures Concat(Lines(s)) == s
    decreases |s|
  {
    var end := LineEnd(s);
    if end < |s| - 1 {
      ConcatLines(s[end + 1..]);
      assert Lines(s)[1..] == Lines(s[end + 1..]);
    }
  }

  lemma {:induction false} LinesTerminated(s: string)
    requires s != "" && Boundary(s[|s| - 1])
    ensures forall i :: 0 <= i < |Lines(s)| ==> Terminated(Lines(s)[i])
    decreases |s|
  {
    var end := LineEnd(s);
    if end < |s| - 1 {
      LinesTerminated(s[end + 1..]);
    }
  }

  /** Splitting undoes joining. */
  lemma {:induction false} LinesConcat(lines: seq<string>)
    requires forall i :: 0 <= i < |lines| ==> Terminated(lines[i])
    ensures Lines(Concat(lines)) == lines
  {
    if lines != [] {
      var first, rest := lines[0], Concat(lines[1..]);
      LinesConcat(lines[1..]);
      var s := first + rest;
      var end := LineEnd(s);
      assert s[|first| - 1] == first[|first| - 1];
      assert forall k :: 0 <= k < |first| - 1 ==> s[k] == first[k];
      assert end == |first| - 1;
      assert s[..end + 1] == first && s[end + 1..] == rest;
      if lines[1..] == [] {
        assert lines == [first] && s == first;
      } else {
        ConcatNonempty(lines[1..]);
      }
    }
  }

  lemma ConcatNonempty(lines: seq<string>)
    requires lines != [] && Terminated(lines[0])
    ensures Concat(lines) != ""
  {
  }

  function StripLeft(s: string): (r: string)
    ensures |r| <= |s| && r == s[|s| - |r|..]
    ensures r != "" ==> !Space(r[0])
  {
    if s != "" && Space(s[0]) then StripLeft(s[1..]) else s
  }

  function StripRight(s: string): (r: string)
    ensures |r| <= |s| && r == s[..|r|]
    ensures r != "" ==> !Space(r[|r| - 1])
    ensures s != "" && Space(s[|s| - 1]) ==> |r| < |s|
    ensures s != "" && !Space(s[0]) ==> r != ""
  {
    if s != "" && Space(s[|s| - 1]) then StripRight(s[..|s| - 1]) else s
  }

  function Strip(s: string): (r: string) {
    StripRight(StripLeft(s))
  }

  /** A stripped line holds no line boundary. */
  lemma StripWithinLine(line: string)
    requires Terminated(line)
    ensures forall k :: 0 <= k < |Strip(line)| ==> !Boundary(Strip(line)[k])
  {
    hide Space, Boundary;
    var left, r := StripLeft(line), Strip(line);
    var n := |line| - |left|;
    if left != "" {
      BoundaryIsSpace(line[|line| - 1]);
      assert left[|left| - 1] == line[|line| - 1];
      assert |r| < |left|;
    }
    assert forall k :: 0 <= k < |r| ==> r[k] == left[k] == line[n + k];
  }

  lemma BoundaryIsSpace(c: char)
    requires Boundary(c)
    ensures Space(c)
  {
  }

  lemma StripSolid(body: string)
    requires body != "" && !Space(body[0]) && !Space(body[|body| - 1])
    ensures Strip(body + "\n") == body
  {
    BoundaryIsSpace('\n');
    hide Space;
    assert StripLeft(body + "\n") == body + "\n";
    assert (body + "\n")[..|body|] == body;
    assert StripRight(body + "\n") == StripRight(body) == body;
  }

  /** Index of the first `c`, or the length. */
  function Find(s: string, c: char): (i: nat)
    ensures i <= |s| && (i < |s| ==> s[i] == c)
    ensures forall k :: 0 <= k < i ==> s[k] != c
    ensures i < |s| <==> c in s
  {
    if s == "" || s[0] == c then 0
    else
      var i := Find(s[1..], c);
      assert s == [s[0]] + s[1..];
      assert forall k :: 0 < k < i + 1 ==> s[k] == s[1..][k - 1];
      i + 1
  }

  lemma FindAfter(head: string, c: char, tail: string)
    requires c !in head
    ensures Find(head + [c] + tail, c) == |head|
  {
    var s := head + [c] + tail;
    assert s[|head|] == c;
    assert forall k :: 0 <= k < |head| ==> s[k] == head[k];
  }

  /** Size in UTF-8. */
  function ByteLength(s: string): nat {
    if s == "" then 0
    else (if s[0] < '\U{80}' then 1 else if s[0] < '\U{800}' then 2 else if s[0] < '\U{10000}' then 3 else 4) + ByteLength(s[1..])
  }
}
