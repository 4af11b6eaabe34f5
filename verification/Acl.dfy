/** The private ACL derivation (scripts/windows_private_profile.py, `derive_private_rows`) against
    the ordered access check of section 2.5.3.2 of MS-DTYP. */
module Acl {
  import opened Faults

  /** An access control entry. The kind and the flags are what the reader found, supported or not. */
  datatype Ace = Ace(kind: int, flags: bv8, mask: bv32, sid: string)

  const ALLOW := 0
  const DENY := 1
  const INHERITED: bv8 := 0x10
  const INHERIT_ONLY: bv8 := 0x08
  const KNOWN_FLAGS: bv8 := 0x1f
  const FULL: bv32 := 0x1f01ff
  const SYSTEM := "S-1-5-18"
  const ADMINISTRATORS := "S-1-5-32-544"

  function Trusted(owner: string): set<string> {
    {owner, SYSTEM, ADMINISTRATORS}
  }

  // ---- The reference: ordered access check ----

  /** A caller: SIDs that count for every entry, and SIDs that count only against it. */
  datatype Token = Token(enabled: set<string>, denyOnly: set<string>)

  predicate Denies(ace: Ace, token: Token) {
    ace.kind == DENY && ace.flags & INHERIT_ONLY == 0 && ace.sid in token.enabled + token.denyOnly
  }

  predicate Allows(ace: Ace, token: Token) {
    ace.kind == ALLOW && ace.flags & INHERIT_ONLY == 0 && ace.sid in token.enabled
  }

  predicate Overlap(a: bv32, b: bv32) { a & b != 0 }

  function Without(rights: bv32, mask: bv32): bv32 { rights & !mask }

  predicate Within(fewer: bv32, rights: bv32) { Without(fewer, rights) == 0 }

  /** The rights still to be granted after the entries, or `None` once one of them is denied. */
  function Remaining(rows: seq<Ace>, token: Token, desired: bv32): Option<bv32>
    decreases |rows|
  {
    if desired == 0 || rows == [] then Some(desired)
    else if Denies(rows[0], token) && Overlap(rows[0].mask, desired) then None
    else Remaining(rows[1..], token, if Allows(rows[0], token) then Without(desired, rows[0].mask) else desired)
  }

  /** Access is granted when every desired right was allowed before any was denied. */
  predicate Granted(rows: seq<Ace>, token: Token, desired: bv32) {
    Remaining(rows, token, desired) == Some(0)
  }

  // ---- The derivation ----

  predicate Supported(ace: Ace) {
    (ace.kind == ALLOW || ace.kind == DENY) && ace.flags & !KNOWN_FLAGS == 0
  }

  predicate Foreign(ace: Ace, owner: string) {
    ace.kind == ALLOW && ace.sid !in Trusted(owner)
  }

  function Protected(ace: Ace): Ace {
    ace.(flags := ace.flags & !INHERITED)
  }

  /** The rows kept, in order, no longer marked as inherited. */
  function Kept(rows: seq<Ace>, owner: string): seq<Ace> {
    if rows == [] then []
    else
      var rest := Kept(rows[..|rows| - 1], owner);
      var last := rows[|rows| - 1];
      if Foreign(last, owner) then rest else rest + [Protected(last)]
  }

  function Removed(rows: seq<Ace>, owner: string): seq<Ace> {
    if rows == [] then []
    else
      var rest := Removed(rows[..|rows| - 1], owner);
      var last := rows[|rows| - 1];
      if Foreign(last, owner) then rest + [last] else rest
  }

  /** Somebody already holds full control in the rows. */
  predicate HasFull(rows: seq<Ace>, sid: string) {
    exists i :: 0 <= i < |rows| && rows[i].kind == ALLOW && rows[i].sid == sid && rows[i].mask == FULL
  }

  /** What the caller can check: only known entries, every foreign grant inherited, and full
      control already granted to each trusted SID. */
  predicate Derivable(rows: seq<Ace>, owner: string) {
    && (forall i :: 0 <= i < |rows| ==> Supported(rows[i]) && (Foreign(rows[i], owner) ==> rows[i].flags & INHERITED != 0))
    && (forall sid <- Trusted(owner) :: HasFull(rows, sid))
  }

  /** `derive_private_rows`. It refuses exactly the lists that are not derivable. */
  method DerivePrivateRows(rows: seq<Ace>, owner: string) returns (r: Option<(seq<Ace>, seq<Ace>)>)
    ensures r.Some? <==> Derivable(rows, owner)
    ensures r.Some? ==> r.value == (Kept(rows, owner), Removed(rows, owner))
  {
    var kept: seq<Ace>, removed: seq<Ace> := [], [];
    var allowed := Trusted(owner);
    for i := 0 to |rows|
      invariant kept == Kept(rows[..i], owner) && removed == Removed(rows[..i], owner)
      invariant forall k :: 0 <= k < i ==> Supported(rows[k]) && (Foreign(rows[k], owner) ==> rows[k].flags & INHERITED != 0)
    {
      var row := rows[i];
      assert rows[..i + 1][..i] == rows[..i];
      if !(row.kind == ALLOW || row.kind == DENY) || row.flags & !KNOWN_FLAGS != 0 {
        return None;
      }
      if row.kind == ALLOW && row.sid !in allowed {
        if row.flags & INHERITED == 0 {
          return None;
        }
        removed := removed + [row];
      } else {
        kept := kept + [row.(flags := row.flags & !INHERITED)];
      }
    }
    assert rows[..|rows|] == rows;
    FullSurvives(rows, owner, owner);
    FullSurvives(rows, owner, SYSTEM);
    FullSurvives(rows, owner, ADMINISTRATORS);
    if HasFull(kept, owner) && HasFull(kept, SYSTEM) && HasFull(kept, ADMINISTRATORS) {
      return Some((kept, removed));
    }
    return None;
  }

  lemma {:induction false} FullSurvives(rows: seq<Ace>, owner: string, sid: string)
    requires sid in Trusted(owner)
    ensures HasFull(Kept(rows, owner), sid) <==> HasFull(rows, sid)
    decreases |rows|
  {
    if rows != [] {
      var n := |rows| - 1;
      FullSurvives(rows[..n], owner, sid);
      FullOfLast(rows, sid);
      if !Foreign(rows[n], owner) {
        assert Kept(rows, owner) == Kept(rows[..n], owner) + [Protected(rows[n])];
        assert Kept(rows, owner)[..|Kept(rows, owner)| - 1] == Kept(rows[..n], owner);
        FullOfLast(Kept(rows, owner), sid);
      }
    }
  }

  lemma FullOfLast(rows: seq<Ace>, sid: string)
    requires rows != []
    ensures var last := rows[|rows| - 1];
            HasFull(rows, sid) <==> HasFull(rows[..|rows| - 1], sid) || (last.kind == ALLOW && last.sid == sid && last.mask == FULL)
  {
    var n := |rows| - 1;
    if HasFull(rows[..n], sid) {
      var i :| 0 <= i < n && rows[..n][i].kind == ALLOW && rows[..n][i].sid == sid && rows[..n][i].mask == FULL;
      assert rows[i] == rows[..n][i];
    }
    if HasFull(rows, sid) {
      var i :| 0 <= i < |rows| && rows[i].kind == ALLOW && rows[i].sid == sid && rows[i].mask == FULL;
      if i < n {
        assert rows[..n][i] == rows[i];
      }
    }
  }

  // ---- The rows ----

  /** The places of the foreign grants, or of all other rows, from the first to the last. */
  function Places(rows: seq<Ace>, owner: string, foreign: bool): seq<nat> {
    if rows == [] then []
    else
      var rest := Places(rows[..|rows| - 1], owner, foreign);
      if Foreign(rows[|rows| - 1], owner) == foreign then rest + [|rows| - 1] else rest
  }

  predicate Increasing(places: seq<nat>) {
    forall i, j :: 0 <= i < j < |places| ==> places[i] < places[j]
  }

  /** `Places` are in order, and are exactly the places of such rows. */
  lemma {:induction false} PlacesMeaning(rows: seq<Ace>, owner: string, foreign: bool)
    ensures Increasing(Places(rows, owner, foreign))
    ensures forall k <- Places(rows, owner, foreign) :: k < |rows| && Foreign(rows[k], owner) == foreign
    ensures forall k :: 0 <= k < |rows| && Foreign(rows[k], owner) == foreign ==> k in Places(rows, owner, foreign)
    decreases |rows|
  {
    if rows != [] {
      PlacesMeaning(rows[..|rows| - 1], owner, foreign);
      var rest := Places(rows[..|rows| - 1], owner, foreign);
      assert forall i :: 0 <= i < |rest| ==> rest[i] in rest;
    }
  }

  /** Nothing is invented and nothing reordered: the kept rows are the rows at the places that are no
      foreign grant, no longer inherited, and the removed ones the rows at all other places. */
  lemma {:induction false} RowsConserved(rows: seq<Ace>, owner: string)
    ensures |Kept(rows, owner)| + |Removed(rows, owner)| == |rows|
    ensures var kept := Places(rows, owner, false);
            && |Kept(rows, owner)| == |kept|
            && forall i :: 0 <= i < |kept| ==> kept[i] < |rows| && Kept(rows, owner)[i] == Protected(rows[kept[i]])
    ensures var removed := Places(rows, owner, true);
            && |Removed(rows, owner)| == |removed|
            && forall i :: 0 <= i < |removed| ==> removed[i] < |rows| && Removed(rows, owner)[i] == rows[removed[i]]
    decreases |rows|
  {
    if rows != [] {
      RowsConserved(rows[..|rows| - 1], owner);
    }
  }

  /** In plain terms, inherit-only entries included: every grant that is kept names the owner, SYSTEM
      or Administrators; every removed row is a grant to somebody else, and inherited; and a row
      that is no such grant is never removed. */
  lemma OnlyTrustedGrantsRemain(rows: seq<Ace>, owner: string)
    ensures forall ace <- Kept(rows, owner) :: ace.kind == 0 ==> ace.sid == owner || ace.sid == "S-1-5-18" || ace.sid == "S-1-5-32-544"
    ensures forall ace <- Kept(rows, owner) :: ace.flags & 0x10 == 0
    ensures forall ace <- Removed(rows, owner) ::
              ace.kind == 0 && ace.sid != owner && ace.sid != "S-1-5-18" && ace.sid != "S-1-5-32-544"
    ensures Derivable(rows, owner) ==> forall ace <- Removed(rows, owner) :: ace.flags & 0x10 != 0
  {
    KeptIsClean(rows, owner);
    PlacesMeaning(rows, owner, true);
    RowsConserved(rows, owner);
    forall ace <- Kept(rows, owner)
      ensures ace.kind == 0 ==> ace.sid in Trusted(owner)
      ensures ace.flags & 0x10 == 0
    {
      assert Protected(ace) == ace;
      assert ace.flags & !INHERITED & INHERITED == 0;
    }
    forall ace <- Removed(rows, owner)
      ensures Foreign(ace, owner) && (Derivable(rows, owner) ==> ace.flags & 0x10 != 0)
    {
      var i :| 0 <= i < |Removed(rows, owner)| && Removed(rows, owner)[i] == ace;
      assert Places(rows, owner, true)[i] in Places(rows, owner, true);
    }
  }

  /** What is kept is no foreign grant and not inherited. */
  lemma {:induction false} KeptIsClean(rows: seq<Ace>, owner: string)
    ensures forall k :: 0 <= k < |Kept(rows, owner)| ==>
              var ace := Kept(rows, owner)[k];
              !Foreign(ace, owner) && Protected(ace) == ace
    decreases |rows|
  {
    if rows != [] {
      KeptIsClean(rows[..|rows| - 1], owner);
      var last := rows[|rows| - 1];
      assert last.flags & !INHERITED & !INHERITED == last.flags & !INHERITED;
    }
  }

  /** Deriving again changes nothing and is never refused. */
  lemma Idempotent(rows: seq<Ace>, owner: string)
    requires Derivable(rows, owner)
    ensures var kept := Kept(rows, owner);
            Derivable(kept, owner) && Kept(kept, owner) == kept && Removed(kept, owner) == []
  {
    var kept := Kept(rows, owner);
    KeptIsClean(rows, owner);
    KeepsAll(kept, owner);
    KeptSupported(rows, owner);
    forall sid <- Trusted(owner)
      ensures HasFull(kept, sid)
    {
      FullSurvives(rows, owner, sid);
    }
  }

  lemma {:induction false} KeepsAll(rows: seq<Ace>, owner: string)
    requires forall k :: 0 <= k < |rows| ==> !Foreign(rows[k], owner) && Protected(rows[k]) == rows[k]
    ensures Kept(rows, owner) == rows && Removed(rows, owner) == []
    decreases |rows|
  {
    if rows != [] {
      KeepsAll(rows[..|rows| - 1], owner);
    }
  }

  lemma {:induction false} KeptSupported(rows: seq<Ace>, owner: string)
    requires forall k :: 0 <= k < |rows| ==> Supported(rows[k])
    ensures forall k :: 0 <= k < |Kept(rows, owner)| ==> Supported(Kept(rows, owner)[k])
    decreases |rows|
  {
    if rows != [] {
      KeptSupported(rows[..|rows| - 1], owner);
      FlagsStayKnown(rows[|rows| - 1].flags);
    }
  }

  lemma FlagsStayKnown(flags: bv8)
    requires flags & !KNOWN_FLAGS == 0
    ensures flags & !INHERITED & !KNOWN_FLAGS == 0
    ensures flags & !INHERITED & INHERIT_ONLY == flags & INHERIT_ONLY
  {
  }

  // ---- Access ----

  lemma {:induction false} KeptFromFront(rows: seq<Ace>, owner: string)
    requires rows != []
    ensures Kept(rows, owner) == (if Foreign(rows[0], owner) then [] else [Protected(rows[0])]) + Kept(rows[1..], owner)
    decreases |rows|
  {
    if |rows| > 1 {
      var n := |rows| - 1;
      KeptFromFront(rows[..n], owner);
      assert rows[..n][1..] == rows[1..][..n - 1];
      assert rows[1..][n - 1] == rows[n];
    } else {
      assert rows[..0] == [] && rows[1..] == [];
    }
  }

  /** The token with every SID but the trusted ones turned against its caller. */
  function TrustedOnly(token: Token, owner: string): Token {
    Token(token.enabled * Trusted(owner), token.denyOnly + (token.enabled - Trusted(owner)))
  }

  /** The whole effect of the derivation on access, for every list, caller and desired rights:
      afterwards only the trusted SIDs can be granted anything, every denial still counts. */
  lemma {:induction false} ExactAccess(rows: seq<Ace>, owner: string, token: Token, desired: bv32)
    ensures Remaining(Kept(rows, owner), token, desired) == Remaining(rows, TrustedOnly(token, owner), desired)
    decreases |rows|
  {
    if rows != [] && desired != 0 {
      hide Kept, Allows, Denies, Foreign, Protected, TrustedOnly, Overlap, Without;
      var first, strict := rows[0], TrustedOnly(token, owner);
      KeptFromFront(rows, owner);
      SameEntry(first, owner, token);
      ExactAccess(rows[1..], owner, token, if Allows(first, strict) then Without(desired, first.mask) else desired);
      if !Foreign(first, owner) {
        assert Kept(rows, owner)[1..] == Kept(rows[1..], owner);
      } else {
        assert Kept(rows, owner) == Kept(rows[1..], owner);
      }
    } else if rows == [] {
      assert Kept(rows, owner) == [];
    }
  }

  lemma SameEntry(ace: Ace, owner: string, token: Token)
    ensures Protected(ace).mask == ace.mask
    ensures Foreign(ace, owner) ==> !Allows(ace, TrustedOnly(token, owner)) && !Denies(ace, TrustedOnly(token, owner))
    ensures !Foreign(ace, owner) ==>
              && (Allows(Protected(ace), token) <==> Allows(ace, TrustedOnly(token, owner)))
              && (Denies(Protected(ace), token) <==> Denies(ace, TrustedOnly(token, owner)))
  {
    var strict := TrustedOnly(token, owner);
    assert strict.enabled + strict.denyOnly == token.enabled + token.denyOnly;
    assert ace.flags & !INHERITED & INHERIT_ONLY == ace.flags & INHERIT_ONLY;
  }

  /** Fewer rights asked of a caller with more enabled SIDs are granted if the others were. */
  lemma {:induction false} GrantedMonotone(rows: seq<Ace>, less: Token, more: Token, desired: bv32, fewer: bv32)
    requires less.enabled <= more.enabled && less.enabled + less.denyOnly == more.enabled + more.denyOnly
    requires Within(fewer, desired) && Granted(rows, less, desired)
    ensures Granted(rows, more, fewer)
    decreases |rows|
  {
    hide Overlap, Without, Within, Allows, Denies;
    if fewer != 0 {
      FewerBits(fewer, desired, 0);
      EntryMonotone(rows[0], less, more);
      var first := rows[0];
      FewerBits(fewer, desired, first.mask);
      FewerWithout(fewer, desired, first.mask);
      var d := if Allows(first, less) then Without(desired, first.mask) else desired;
      var f := if Allows(first, more) then Without(fewer, first.mask) else fewer;
      GrantedMonotone(rows[1..], less, more, d, f);
    }
  }

  lemma EntryMonotone(ace: Ace, less: Token, more: Token)
    requires less.enabled <= more.enabled && less.enabled + less.denyOnly == more.enabled + more.denyOnly
    ensures Allows(ace, less) ==> Allows(ace, more)
    ensures Denies(ace, less) <==> Denies(ace, more)
    ensures Allows(ace, more) ==> !Denies(ace, more)
  {
  }

  lemma FewerBits(fewer: bv32, desired: bv32, mask: bv32)
    requires Within(fewer, desired)
    ensures desired == 0 ==> fewer == 0
    ensures Overlap(mask, fewer) ==> Overlap(mask, desired)
  {
  }

  lemma FewerWithout(fewer: bv32, desired: bv32, mask: bv32)
    requires Within(fewer, desired)
    ensures Within(Without(fewer, mask), desired)
    ensures Within(Without(fewer, mask), Without(desired, mask))
  {
    assert (fewer & !mask) & !(desired & !mask) == (fewer & !desired) & !mask;
  }

  /** For every list, caller and desired rights: what is granted afterwards was granted before. */
  lemma NoNewAccess(rows: seq<Ace>, owner: string, token: Token, desired: bv32)
    requires Granted(Kept(rows, owner), token, desired)
    ensures Granted(rows, token, desired)
  {
    ExactAccess(rows, owner, token, desired);
    var strict := TrustedOnly(token, owner);
    assert strict.enabled + strict.denyOnly == token.enabled + token.denyOnly;
    assert Within(desired, desired);
    GrantedMonotone(rows, strict, token, desired, desired);
  }

  /** A caller made only of the owner, SYSTEM and Administrators keeps exactly its access. */
  lemma TrustedAccessKept(rows: seq<Ace>, owner: string, token: Token, desired: bv32)
    requires token.enabled <= Trusted(owner)
    ensures Granted(Kept(rows, owner), token, desired) <==> Granted(rows, token, desired)
  {
    ExactAccess(rows, owner, token, desired);
    assert TrustedOnly(token, owner) == token;
  }
}
