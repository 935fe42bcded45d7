/** What the helper accepts on its files' access-control lists, against how Windows
    evaluates them: in order, each entry granting or denying the rights that no entry
    before it decided (section 2.5.3.2 of MS-DTYP). */
module AccessControl {
  import opened Wrappers

  type Mask = bv32

  /** Type is the low byte of the entry's header. */
  datatype Ace = Ace(kind: bv8, flags: bv8, mask: Mask, sid: string)

  const SYSTEM := "S-1-5-18"
  const ADMINISTRATORS := "S-1-5-32-544"

  const LIST_DIRECTORY: Mask := 0x0001
  const ADD_FILE: Mask := 0x0002
  const ADD_SUBDIR: Mask := 0x0004
  const READ_EA: Mask := 0x0008
  const WRITE_EA: Mask := 0x0010
  const TRAVERSE: Mask := 0x0020
  const DELETE_CHILD: Mask := 0x0040
  const READ_ATTRS: Mask := 0x0080
  const WRITE_ATTRS: Mask := 0x0100
  const DELETE: Mask := 0x0001_0000
  const READ_CONTROL: Mask := 0x0002_0000
  const WRITE_DAC: Mask := 0x0004_0000
  const WRITE_OWNER: Mask := 0x0008_0000
  const SYNCHRONIZE: Mask := 0x0010_0000
  const GENERIC_ALL: Mask := 0x1000_0000
  const GENERIC_WRITE: Mask := 0x4000_0000
  const FULL: Mask := 0x001f_01ff

  const DIR_USE: Mask := SYNCHRONIZE | READ_CONTROL | READ_ATTRS | TRAVERSE | READ_EA | LIST_DIRECTORY
  const SOCKET_USE: Mask := SYNCHRONIZE | READ_CONTROL | READ_ATTRS | READ_EA | LIST_DIRECTORY
                            | WRITE_ATTRS | WRITE_EA | ADD_SUBDIR | ADD_FILE
  const WRITE_RIGHTS: Mask := ADD_FILE | ADD_SUBDIR | DELETE_CHILD | DELETE
                              | WRITE_DAC | WRITE_OWNER | GENERIC_WRITE | GENERIC_ALL

  const INHERIT_ONLY: bv8 := 0x08
  const INHERITED_BY_ALL: bv8 := 0x03

  predicate Trusted(sid: string) { sid == SYSTEM || sid == ADMINISTRATORS }

  /** Plain, object, callback and callback-object denials. */
  predicate Denies(kind: bv8) { kind == 0x1 || kind == 0x6 || kind == 0xA || kind == 0xC }

  predicate Applies(a: Ace) { a.flags & INHERIT_ONLY == 0 }

  predicate Writes(mask: Mask) { mask & WRITE_RIGHTS != 0 }

  // ------------------------------------------------------- the check

  datatype Denial = NotTrusted(owner: string) | NoDacl | Writers(who: seq<(string, Mask)>)

  /** An entry on account of which the check refuses. */
  predicate Suspect(a: Ace) {
    !Denies(a.kind) && Applies(a) && Writes(a.mask) && !Trusted(a.sid)
  }

  function Suspects(dacl: seq<Ace>): seq<(string, Mask)> {
    if dacl == [] then []
    else
      var a := dacl[|dacl|-1];
      Suspects(dacl[..|dacl|-1]) + if Suspect(a) then [(a.sid, a.mask)] else []
  }

  /** checkACL; None is acceptance. */
  method CheckACL(owner: string, dacl: seq<Ace>, nilDacl: bool) returns (r: Option<Denial>)
    ensures r == Checked(owner, dacl, nilDacl)
  {
    if !Trusted(owner) {
      return Some(NotTrusted(owner));
    }
    if nilDacl {
      return Some(NoDacl);
    }
    var writers: seq<(string, Mask)> := [];
    for k := 0 to |dacl|
      invariant writers == Suspects(dacl[..k])
    {
      var a := dacl[k];
      assert dacl[..k+1][..k] == dacl[..k];
      if Denies(a.kind) || a.flags & INHERIT_ONLY != 0 {
        continue;
      }
      if a.mask & WRITE_RIGHTS != 0 && !Trusted(a.sid) {
        writers := writers + [(a.sid, a.mask)];
      }
    }
    assert dacl[..|dacl|] == dacl;
    return if |writers| > 0 then Some(Writers(writers)) else None;
  }

  function Checked(owner: string, dacl: seq<Ace>, nilDacl: bool): Option<Denial> {
    if !Trusted(owner) then Some(NotTrusted(owner))
    else if nilDacl then Some(NoDacl)
    else if Suspects(dacl) != [] then Some(Writers(Suspects(dacl)))
    else None
  }

  lemma {:induction false} SuspectsExactly(dacl: seq<Ace>)
    ensures forall w :: w in Suspects(dacl) <==> exists a :: a in dacl && Suspect(a) && w == (a.sid, a.mask)
    decreases |dacl|
  {
    if dacl != [] {
      var init, a := dacl[..|dacl|-1], dacl[|dacl|-1];
      SuspectsExactly(init);
      assert dacl == init + [a];
    }
  }

  lemma {:induction false} AcceptedIfNoneSuspect(dacl: seq<Ace>)
    ensures Suspects(dacl) == [] <==> forall a | a in dacl :: !Suspect(a)
    decreases |dacl|
  {
    if dacl != [] {
      var init, a := dacl[..|dacl|-1], dacl[|dacl|-1];
      AcceptedIfNoneSuspect(init);
      assert dacl == init + [a];
    }
  }

  // ------------------------------------------------------- how Windows decides

  /** Who asks: every SID of the token. */
  type Token = set<string>

  /** Rights decided so far. */
  datatype Decision = Decision(granted: Mask, denied: Mask)

  /** One entry; a conditional one counts if holds says its condition does. */
  function Decide(d: Decision, a: Ace, token: Token, holds: bool): Decision {
    if !Applies(a) || a.sid !in token || !holds then d
    else if Denies(a.kind) then d.(denied := d.denied | (a.mask & !d.granted))
    else d.(granted := d.granted | (a.mask & !d.denied))
  }

  /** The whole list in order; holds says of each position whether its condition does. */
  function Decided(dacl: seq<Ace>, token: Token, holds: nat -> bool): Decision {
    if dacl == [] then Decision(0, 0)
    else Decide(Decided(dacl[..|dacl|-1], token, holds), dacl[|dacl|-1], token, holds(|dacl|-1))
  }

  /** The rights token has on an object with this list; a nil list grants everything. */
  function Granted(dacl: seq<Ace>, nilDacl: bool, token: Token, holds: nat -> bool): Mask {
    if nilDacl then 0xffff_ffff else Decided(dacl, token, holds).granted
  }

  predicate Untrusted(token: Token) { SYSTEM !in token && ADMINISTRATORS !in token }

  // ------------------------------------------------------- soundness

  lemma OrWrites(g: Mask, m: Mask, d: Mask)
    ensures Writes(g | (m & !d)) ==> Writes(g) || Writes(m)
    ensures Writes(g) ==> Writes(g | (m & !d))
    ensures d == 0 && Writes(m) ==> Writes(g | (m & !d))
  {
  }

  lemma {:induction false} NothingSuspectNothingGranted(dacl: seq<Ace>, token: Token, holds: nat -> bool)
    requires Untrusted(token) && forall a | a in dacl :: !Suspect(a)
    ensures !Writes(Decided(dacl, token, holds).granted)
    decreases |dacl|
  {
    assert !Writes(0);
    if dacl != [] {
      var init, a := dacl[..|dacl|-1], dacl[|dacl|-1];
      assert dacl == init + [a];
      NothingSuspectNothingGranted(init, token, holds);
      var d := Decided(init, token, holds);
      assert a in dacl && !Suspect(a);
      if Applies(a) && a.sid in token && !Denies(a.kind) {
        assert !Writes(a.mask);
        OrWrites(d.granted, a.mask, d.denied);
      }
    }
  }

  /** Soundness: on a list that is accepted, no token without SYSTEM or Administrators
      is granted any right that lets it change the file, in whatever order the entries
      stand, whatever is denied, and whichever conditions hold. */
  lemma AcceptedIsSafe(owner: string, dacl: seq<Ace>, nilDacl: bool, token: Token, holds: nat -> bool)
    requires Checked(owner, dacl, nilDacl).None? && Untrusted(token)
    ensures !Writes(Granted(dacl, nilDacl, token, holds))
  {
    AcceptedIfNoneSuspect(dacl);
    NothingSuspectNothingGranted(dacl, token, holds);
  }

  /** The list without its denials: what the check looks at. */
  function Allowances(dacl: seq<Ace>): seq<Ace> {
    if dacl == [] then []
    else
      var a := dacl[|dacl|-1];
      Allowances(dacl[..|dacl|-1]) + if Denies(a.kind) then [] else [a]
  }

  lemma {:induction false} AllowancesExactly(dacl: seq<Ace>)
    ensures forall a :: a in Allowances(dacl) <==> a in dacl && !Denies(a.kind)
    decreases |dacl|
  {
    if dacl != [] {
      var init, a := dacl[..|dacl|-1], dacl[|dacl|-1];
      assert dacl == init + [a];
      AllowancesExactly(init);
    }
  }

  const ALL_HOLD: nat -> bool := k => true

  /** Where nothing was denied, an entry that does not deny only adds. */
  lemma DecideAdds(d: Decision, a: Ace, token: Token)
    requires d.denied == 0 && !Denies(a.kind)
    ensures var e := Decide(d, a, token, true);
            && e.denied == 0
            && (Writes(d.granted) ==> Writes(e.granted))
            && (Applies(a) && a.sid in token && Writes(a.mask) ==> Writes(e.granted))
  {
    OrWrites(d.granted, a.mask, d.denied);
  }

  lemma {:induction false} SuspectIsGranted(dacl: seq<Ace>, a: Ace)
    requires a in dacl && Suspect(a) && forall b | b in dacl :: !Denies(b.kind)
    ensures Decided(dacl, {a.sid}, ALL_HOLD).denied == 0
    ensures Writes(Decided(dacl, {a.sid}, ALL_HOLD).granted)
    decreases |dacl|
  {
    var init, last := dacl[..|dacl|-1], dacl[|dacl|-1];
    assert dacl == init + [last];
    NothingDenied(init, {a.sid});
    var d := Decided(init, {a.sid}, ALL_HOLD);
    if a in init {
      SuspectIsGranted(init, a);
    }
    DecideAdds(d, last, {a.sid});
  }

  lemma {:induction false} NothingDenied(dacl: seq<Ace>, token: Token)
    requires forall b | b in dacl :: !Denies(b.kind)
    ensures Decided(dacl, token, ALL_HOLD).denied == 0
    decreases |dacl|
  {
    if dacl != [] {
      var init := dacl[..|dacl|-1];
      assert dacl == init + [dacl[|dacl|-1]];
      NothingDenied(init, token);
    }
  }

  /** Exactly: a list is accepted just when, were every denial in it ignored, no token
      without SYSTEM or Administrators would be granted a right to change the file. */
  lemma AcceptedExactly(owner: string, dacl: seq<Ace>, nilDacl: bool)
    ensures Checked(owner, dacl, nilDacl).None?
       <==> && Trusted(owner)
            && forall token: Token, holds: nat -> bool | Untrusted(token) ::
                 !Writes(Granted(Allowances(dacl), nilDacl, token, holds))
  {
    AcceptedIfNoneSuspect(dacl);
    AllowancesExactly(dacl);
    if Trusted(owner) {
      if nilDacl {
        assert Untrusted({}) && Writes(Granted(Allowances(dacl), nilDacl, {}, ALL_HOLD));
      } else if Suspects(dacl) != [] {
        var a :| a in dacl && Suspect(a);
        SuspectIsGranted(Allowances(dacl), a);
        assert Untrusted({a.sid});
        assert Writes(Granted(Allowances(dacl), nilDacl, {a.sid}, ALL_HOLD));
      } else {
        forall token: Token, holds: nat -> bool | Untrusted(token)
          ensures !Writes(Granted(Allowances(dacl), nilDacl, token, holds))
        {
          NothingSuspectNothingGranted(Allowances(dacl), token, holds);
        }
      }
    }
  }

  // ------------------------------------------------------- by the numbers

  /** The rights that let somebody change what a file says, replace it, or give themselves the
      right to, each by its value: FILE_ADD_FILE, FILE_ADD_SUBDIRECTORY, FILE_DELETE_CHILD,
      DELETE, WRITE_DAC, WRITE_OWNER, GENERIC_ALL and GENERIC_WRITE. */
  predicate HasNoneOfEight(m: Mask) {
    && m & 0x0000_0002 == 0 && m & 0x0000_0004 == 0 && m & 0x0000_0040 == 0
    && m & 0x0001_0000 == 0 && m & 0x0004_0000 == 0 && m & 0x0008_0000 == 0
    && m & 0x1000_0000 == 0 && m & 0x4000_0000 == 0
  }

  lemma EightAreWrites(m: Mask)
    ensures Writes(m) <==> m & 0x500d_0046 != 0
    ensures Writes(m) <==> !HasNoneOfEight(m)
  {
  }

  /** On an accepted list no token without SYSTEM or Administrators is granted any of them. */
  lemma AcceptedGrantsNoneOfEight(owner: string, dacl: seq<Ace>, nilDacl: bool, token: Token, holds: nat -> bool)
    requires Checked(owner, dacl, nilDacl).None? && "S-1-5-18" !in token && "S-1-5-32-544" !in token
    ensures HasNoneOfEight(Granted(dacl, nilDacl, token, holds))
  {
    AcceptedIsSafe(owner, dacl, nilDacl, token, holds);
    EightAreWrites(Granted(dacl, nilDacl, token, holds));
  }

  /** An entry counts against the file exactly if its type is none of the four that deny, it is
      not inherit-only, its mask has one of the eight, and it is for neither SYSTEM nor the
      Administrators. */
  predicate CountsAgainst(a: Ace) {
    && a.kind != 0x1 && a.kind != 0x6 && a.kind != 0xA && a.kind != 0xC
    && a.flags & 0x08 == 0
    && a.mask & 0x500d_0046 != 0
    && a.sid != "S-1-5-18" && a.sid != "S-1-5-32-544"
  }

  function AgainstBy(a: Ace): seq<(string, Mask)> {
    if CountsAgainst(a) then [(a.sid, a.mask)] else []
  }

  /** The trustees and masks of the entries that count, in the order of the list. */
  function Against(dacl: seq<Ace>): seq<(string, Mask)> {
    if dacl == [] then [] else AgainstBy(dacl[0]) + Against(dacl[1..])
  }

  lemma OneMoreSuspect(dacl: seq<Ace>, a: Ace)
    ensures Suspects(dacl + [a]) == Suspects(dacl) + AgainstBy(a)
  {
    assert (dacl + [a])[..|dacl|] == dacl;
    EightAreWrites(a.mask);
  }

  lemma {:induction false} SuspectsByNumbers(dacl: seq<Ace>, more: seq<Ace>)
    ensures Suspects(dacl + more) == Suspects(dacl) + Against(more)
    decreases |more|
  {
    if more == [] {
      assert dacl + more == dacl;
    } else {
      assert dacl + [more[0]] + more[1..] == dacl + more;
      SuspectsByNumbers(dacl + [more[0]], more[1..]);
      OneMoreSuspect(dacl, more[0]);
    }
  }

  /** The whole verdict: first the owner, then a missing list, then the entries that count. */
  lemma VerdictExactly(owner: string, dacl: seq<Ace>, nilDacl: bool)
    ensures Checked(owner, dacl, nilDacl) ==
              if owner != "S-1-5-18" && owner != "S-1-5-32-544" then Some(NotTrusted(owner))
              else if nilDacl then Some(NoDacl)
              else if Against(dacl) == [] then None
              else Some(Writers(Against(dacl)))
  {
    SuspectsByNumbers([], dacl);
    assert [] + dacl == dacl;
    assert Suspects([]) + Against(dacl) == Against(dacl);
  }

  /** On a list without denials a refusal names only trustees who may write: each is
      untrusted, and granted a right to change the file. */
  lemma RefusalNamesWriters(owner: string, dacl: seq<Ace>, w: (string, Mask))
    requires Checked(owner, dacl, false) == Some(Writers(Suspects(dacl))) && w in Suspects(dacl)
    requires forall b | b in dacl :: !Denies(b.kind)
    ensures !Trusted(w.0) && Writes(Granted(dacl, false, {w.0}, ALL_HOLD))
  {
    SuspectsExactly(dacl);
    var a :| a in dacl && Suspect(a) && w == (a.sid, a.mask);
    SuspectIsGranted(dacl, a);
  }

  /** The order of the entries does not matter to the check. */
  lemma OrderDoesNotMatter(owner: string, dacl: seq<Ace>, other: seq<Ace>, nilDacl: bool)
    requires forall a :: a in dacl <==> a in other
    ensures Checked(owner, dacl, nilDacl).None? <==> Checked(owner, other, nilDacl).None?
  {
    AcceptedIfNoneSuspect(dacl);
    AcceptedIfNoneSuspect(other);
  }

  // ------------------------------------------------------- the helper's own lists

  /** The entries of dirSDDL. */
  function DirDacl(group: string): seq<Ace> {
    [Ace(0, INHERITED_BY_ALL, FULL, SYSTEM), Ace(0, INHERITED_BY_ALL, FULL, ADMINISTRATORS), Ace(0, 0, DIR_USE, group)]
  }

  /** The entries of socketSDDL. */
  function SocketDacl(group: string): seq<Ace> {
    [Ace(0, 0, FULL, SYSTEM), Ace(0, 0, FULL, ADMINISTRATORS), Ace(0, 0, SOCKET_USE, group)]
  }

  /** The directory passes its own check whatever the group, and gives the group just
      what it needs to reach the socket: to read and to traverse (FILE_GENERIC_READ and
      FILE_TRAVERSE). */
  lemma DirectoryAccepted(group: string)
    ensures Checked(SYSTEM, DirDacl(group), false).None?
    ensures !Trusted(group) ==> Granted(DirDacl(group), false, {group}, ALL_HOLD) == 0x0012_00a9
  {
    var dacl := DirDacl(group);
    AcceptedIfNoneSuspect(dacl);
    assert !Writes(DIR_USE);
    if !Trusted(group) {
      var two := dacl[..2];
      assert two[..1] == dacl[..1] && dacl[..1][..0] == [];
      assert Decided(dacl[..1], {group}, ALL_HOLD) == Decision(0, 0);
      assert Decided(two, {group}, ALL_HOLD) == Decision(0, 0);
    }
  }

  /** The socket's list would not pass: its group may write, which is what connecting
      takes (FILE_GENERIC_READ and FILE_GENERIC_WRITE). */
  lemma SocketRefused(group: string)
    ensures Checked(SYSTEM, SocketDacl(group), false).None? <==> Trusted(group)
    ensures !Trusted(group) ==> Granted(SocketDacl(group), false, {group}, ALL_HOLD) == 0x0012_019f
  {
    var dacl := SocketDacl(group);
    if !Trusted(group) {
      var two := dacl[..2];
      assert two[..1] == dacl[..1] && dacl[..1][..0] == [];
      assert Decided(dacl[..1], {group}, ALL_HOLD) == Decision(0, 0);
      assert Decided(two, {group}, ALL_HOLD) == Decision(0, 0);
    }
    AcceptedIfNoneSuspect(dacl);
    assert dacl[2] in dacl && Writes(SOCKET_USE);
  }

  /** Of both, SYSTEM and the Administrators have full control, and the directory passes it on
      to everything created in it; nobody else is named but the group. */
  lemma OwnersInFullControl(group: string, trusted: string)
    requires trusted == "S-1-5-18" || trusted == "S-1-5-32-544"
    ensures Ace(0, 3, 0x001f_01ff, trusted) in DirDacl(group) && Ace(0, 0, 0x001f_01ff, trusted) in SocketDacl(group)
    ensures forall a | a in DirDacl(group) || a in SocketDacl(group) ::
              a.kind == 0 && a.sid in {"S-1-5-18", "S-1-5-32-544", group}
  {
    assert Ace(0, 3, 0x001f_01ff, trusted) == DirDacl(group)[if trusted == "S-1-5-18" then 0 else 1];
    assert Ace(0, 0, 0x001f_01ff, trusted) == SocketDacl(group)[if trusted == "S-1-5-18" then 0 else 1];
  }
}
