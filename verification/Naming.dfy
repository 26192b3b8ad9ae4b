/** Names cut to a maximum length with a hash, and the role lookup that has to find
    them again by the part that survives the cut. Strings are byte strings. */
module Naming {
  import opened Bags
  import opened Framing
  import opened Strings

  const DASH: Byte := 45
  const MAX_ROLE_NAME := 64
  const UUID_LENGTH := 36

  // ---------- the hash ----------

  /** One step for the byte c: the sum wraps around at 32 bits; the high four bits are
      folded into the low byte and cleared. */
  function ElfStep(h: bv32, c: bv32): bv32 {
    var sum := (h << 4) + c;
    var g := sum & 0xf000_0000;
    (if g != 0 then sum ^ (g >> 24) else sum) & 0x0fff_ffff
  }

  lemma ElfStepFits(h: bv32, c: bv32)
    ensures ElfStep(h, c) <= 0x0fff_ffff
  {
  }

  /** The low four bits of a step are those of the byte. */
  lemma ElfStepLow(h: bv32, c: bv32)
    ensures ElfStep(h, c) & 0xf == c & 0xf
  {
  }

  /** The next four are folded with the four that overflow. */
  lemma ElfStepFolds(h: bv32, c: bv32)
    ensures ElfStep(h, c) & 0xf0 == (((h << 4) + c) & 0xf0) ^ ((((h << 4) + c) & 0xf000_0000) >> 24)
  {
  }

  /** The next sixteen bits of the sum stay. */
  lemma ElfStepKeeps(h: bv32, c: bv32)
    ensures ElfStep(h, c) & 0xff00 == ((h << 4) + c) & 0xff00
    ensures ElfStep(h, c) & 0xff_0000 == ((h << 4) + c) & 0xff_0000
  {
  }

  /** So do the four above them, and the highest four are cleared. */
  lemma ElfStepClears(h: bv32, c: bv32)
    ensures ElfStep(h, c) & 0xff00_0000 == ((h << 4) + c) & 0x0f00_0000
  {
  }

  /** As long as nothing overflows, a step appends the byte in base 16. */
  lemma ElfStepAppends(h: bv32, c: bv32)
    requires h <= 0x00ff_ffe0 && c <= 0xff
    ensures ElfStep(h, c) == (h << 4) + c
  {
    assert ((h << 4) + c) & 0xf000_0000 == 0;
  }

  function ElfState(s: seq<Byte>): (h: bv32)
    ensures h <= 0x0fff_ffff
  {
    if s == [] then 0
    else
      ElfStepFits(ElfState(s[..|s| - 1]), s[|s| - 1] as bv32);
      ElfStep(ElfState(s[..|s| - 1]), s[|s| - 1] as bv32)
  }

  /** The steps taken from the left, from h on. */
  function ElfFrom(h: bv32, s: seq<Byte>): bv32
    decreases |s|
  {
    if s == [] then h else ElfFrom(ElfStep(h, s[0] as bv32), s[1..])
  }

  lemma {:induction false} ElfFromThen(h: bv32, s: seq<Byte>, c: Byte)
    ensures ElfFrom(h, s + [c]) == ElfStep(ElfFrom(h, s), c as bv32)
    decreases |s|
  {
    if s == [] {
      assert (s + [c])[1..] == [];
    } else {
      assert (s + [c])[1..] == s[1..] + [c];
      ElfFromThen(ElfStep(h, s[0] as bv32), s[1..], c);
    }
  }

  /** The hash takes the bytes from the left, starting from 0. */
  lemma {:induction false} ElfFromLeft(s: seq<Byte>)
    ensures ElfState(s) == ElfFrom(0, s)
  {
    if s != [] {
      var n := |s| - 1;
      assert s == s[..n] + [s[n]];
      ElfFromLeft(s[..n]);
      ElfFromThen(0, s[..n], s[n]);
    }
  }

  function ElfValue(s: seq<Byte>): nat { (ElfState(s) as bv28) as nat }

  function ElfDigits(s: seq<Byte>): seq<Byte> { Decimal(ElfValue(s)) }

  method ElfHash(name: seq<Byte>) returns (digits: seq<Byte>)
    ensures digits == ElfDigits(name)
  {
    var h: bv32 := 0;
    for i := 0 to |name|
      invariant h == ElfState(name[..i])
    {
      assert name[..i + 1][..i] == name[..i];
      h := ElfStep(h, name[i] as bv32);
    }
    assert name[..|name|] == name;
    digits := Decimal((h as bv28) as nat);
  }

  function Pow10(k: nat): nat { if k == 0 then 1 else 10 * Pow10(k - 1) }

  lemma {:induction false} DecimalLength(n: nat, k: nat)
    requires 0 < k && n < Pow10(k)
    ensures 1 <= |Decimal(n)| <= k
  {
    if n >= 10 {
      assert k > 1;
      DecimalLength(n / 10, k - 1);
    }
  }

  lemma NineDigits(n: nat)
    requires n < 0x1000_0000
    ensures 1 <= |Decimal(n)| <= 9
  {
    assert Pow10(3) == 1000;
    assert Pow10(6) == 1000 * Pow10(3);
    assert Pow10(9) == 1000 * Pow10(6);
    DecimalLength(n, 9);
  }

  /** The hash is what its digits say. */
  lemma ElfDigitsValue(s: seq<Byte>)
    ensures AllDigits(ElfDigits(s)) && DigitsValue(ElfDigits(s)) == ElfValue(s)
  {
    DecimalValue(ElfValue(s));
  }

  /** For every string: one to nine digits. */
  lemma ElfDigitsBounded(s: seq<Byte>)
    ensures 1 <= |ElfDigits(s)| <= 9 && AllDigits(ElfDigits(s))
  {
    var n := (ElfState(s) as bv28) as nat;
    NineDigits(n);
    DecimalValue(n);
  }

  // ---------- shortened names ----------

  /** None is a slice out of bounds. */
  function ElfHashSuffixed(s: seq<Byte>, maxLength: int): Option<seq<Byte>> {
    if |s| < maxLength then Some(s)
    else
      var hash := ElfDigits(s);
      var cut := maxLength - |hash| - 1;
      if cut < 0 then None else Some(s[..cut] + [DASH] + hash)
  }

  /** A bound of 10 or more is always met; what is shortened has exactly that length
      and keeps all but its last ten characters at most. */
  lemma SuffixedFits(s: seq<Byte>, maxLength: int)
    requires maxLength >= 10
    ensures var r := ElfHashSuffixed(s, maxLength);
            && r.Some?
            && (|s| < maxLength ==> r.value == s)
            && (|s| >= maxLength ==> |r.value| == maxLength && s[..maxLength - 10] <= r.value)
  {
    ElfDigitsBounded(s);
  }

  /** A smaller bound fails exactly for strings that reach it with too long a hash. */
  lemma SuffixedPanics(s: seq<Byte>, maxLength: int)
    ensures ElfHashSuffixed(s, maxLength).None? <==> |s| >= maxLength && maxLength <= |ElfDigits(s)|
  {
  }

  // ---------- role names ----------

  function FullName(base: seq<Byte>, uuid: seq<Byte>): seq<Byte> { base + [DASH] + uuid }

  /** A base that leaves room for all of it is followed by a dash and the uuid. */
  lemma ShortName(base: seq<Byte>, uuid: seq<Byte>)
    requires |base| <= 26 && |uuid| == 36
    ensures RoleName(base, uuid) == base + [45] + uuid
  {
  }

  /** The name under which a role is created. */
  function RoleName(base: seq<Byte>, uuid: seq<Byte>): seq<Byte> {
    match ElfHashSuffixed(FullName(base, uuid), MAX_ROLE_NAME)
    case Some(name) => name
    case None => []
  }

  /** The part after the last dash is a word, not a number: some byte that is no digit
      and no dash has no dash after it. The names of all roles end so. */
  ghost predicate EndsInWord(base: seq<Byte>) {
    exists w: nat :: WordAt(base, w)
  }

  predicate WordAt(base: seq<Byte>, w: nat) {
    w < |base| && base[w] != DASH && !IsDigit(base[w]) && forall j :: w < j < |base| ==> base[j] != DASH
  }

  /** A base longer than what is kept of it that occurs in the name all the same: from its
      i-th byte on, what is kept repeats the base up to a dash, and the hash goes on as the
      base does after that dash. */
  predicate Straddles(base: seq<Byte>, hash: seq<Byte>, i: nat) {
    var cut := MAX_ROLE_NAME - |hash| - 1;
    && i <= cut < |base| && i + |base| <= MAX_ROLE_NAME
    && base[..cut - i] == base[i..cut] && base[cut - i] == DASH
    && base[cut - i + 1..] == hash[..|base| - (cut - i) - 1]
  }

  /** Exactly when a role's name still contains the base it was made from: base and hash
      leave room for the dash, or the base straddles the cut. */
  lemma NameKeepsBase(base: seq<Byte>, uuid: seq<Byte>)
    requires |uuid| == UUID_LENGTH
    ensures |RoleName(base, uuid)| <= MAX_ROLE_NAME
    ensures var hash := ElfDigits(FullName(base, uuid));
            Contains(RoleName(base, uuid), base) <==>
            |base| + |hash| < MAX_ROLE_NAME || exists i: nat :: Straddles(base, hash, i)
  {
    var full := FullName(base, uuid);
    var hash := ElfDigits(full);
    SuffixedFits(full, MAX_ROLE_NAME);
    ElfDigitsBounded(full);
    var cut := MAX_ROLE_NAME - |hash| - 1;
    if |base| <= cut {
      ShortNameKeepsBase(base, uuid);
    } else {
      assert full[..cut] == base[..cut];
      ContainsMeans(RoleName(base, uuid), base);
      forall i: nat
        ensures OccursAt(RoleName(base, uuid), base, i) <==> Straddles(base, hash, i)
      {
        OccursStraddling(base, hash, i);
      }
    }
  }

  lemma OccursStraddling(base: seq<Byte>, hash: seq<Byte>, i: nat)
    requires 1 <= |hash| <= 9 && |base| + |hash| >= MAX_ROLE_NAME
    ensures OccursAt(base[..MAX_ROLE_NAME - |hash| - 1] + [DASH] + hash, base, i) <==> Straddles(base, hash, i)
  {
    var cut := MAX_ROLE_NAME - |hash| - 1;
    var name := base[..cut] + [DASH] + hash;
    if i <= cut && i + |base| <= |name| {
      var dash := cut - i;
      var here := name[i..i + |base|];
      assert here == base[i..cut] + [DASH] + hash[..|base| - dash - 1];
      assert base == base[..dash] + [base[dash]] + base[dash + 1..];
      if here == base {
        assert here[..dash] == base[i..cut] && here[dash] == DASH && here[dash + 1..] == hash[..|base| - dash - 1];
      }
    }
  }

  /** A base that straddles the cut ends in a number, if anything comes after its last dash. */
  lemma StraddlesEndsInNumber(base: seq<Byte>, hash: seq<Byte>, i: nat)
    requires Straddles(base, hash, i) && AllDigits(hash)
    ensures !EndsInWord(base)
  {
    var dash := MAX_ROLE_NAME - |hash| - 1 - i;
    forall w: nat
      ensures !WordAt(base, w)
    {
      if dash < w < |base| {
        assert base[w] == base[dash + 1..][w - dash - 1];
      }
    }
  }

  /** So for a base that ends in a word only the room for the dash matters. */
  lemma WordNameKeepsBase(base: seq<Byte>, uuid: seq<Byte>)
    requires |uuid| == UUID_LENGTH && EndsInWord(base)
    ensures Contains(RoleName(base, uuid), base) <==> |base| + |ElfDigits(FullName(base, uuid))| < MAX_ROLE_NAME
  {
    var hash := ElfDigits(FullName(base, uuid));
    ElfDigitsBounded(FullName(base, uuid));
    NameKeepsBase(base, uuid);
    forall i: nat
      ensures !Straddles(base, hash, i)
    {
      if Straddles(base, hash, i) {
        StraddlesEndsInNumber(base, hash, i);
      }
    }
  }

  lemma ShortNameKeepsBase(base: seq<Byte>, uuid: seq<Byte>)
    requires |uuid| == UUID_LENGTH && |base| + |ElfDigits(FullName(base, uuid))| < MAX_ROLE_NAME
    ensures Contains(RoleName(base, uuid), base)
  {
    var full := FullName(base, uuid);
    assert base <= RoleName(base, uuid);
  }

  /** In particular: up to 54 characters always, from 65 on never. */
  lemma BaseLengths(base: seq<Byte>, uuid: seq<Byte>)
    requires |uuid| == UUID_LENGTH
    ensures |base| <= 54 ==> Contains(RoleName(base, uuid), base)
    ensures |base| >= 65 ==> !Contains(RoleName(base, uuid), base)
  {
    var full := FullName(base, uuid);
    ElfDigitsBounded(full);
    SuffixedFits(full, MAX_ROLE_NAME);
    if |base| <= 54 {
      ShortNameKeepsBase(base, uuid);
    } else if |base| >= 65 {
      ContainsMeans(RoleName(base, uuid), base);
    }
  }

  // ---------- the paged lookup ----------

  datatype Role = Role(name: seq<Byte>, arn: string)

  datatype Lookup = Found(role: Role) | NotFound | ListFailed

  /** One page of a listing; None if the call fails. A page is truncated if another follows. */
  type Page = Option<seq<Role>>

  /** The index of the first role whose name contains the base, or the number of roles. */
  function FirstMatch(roles: seq<Role>, base: seq<Byte>): (i: nat)
    ensures i <= |roles| && (i < |roles| ==> Contains(roles[i].name, base))
    ensures forall j :: 0 <= j < i ==> !Contains(roles[j].name, base)
  {
    if roles == [] || Contains(roles[0].name, base) then 0 else 1 + FirstMatch(roles[1..], base)
  }

  function GetIamRole(pages: seq<Page>, base: seq<Byte>): Lookup
    requires pages != []
  {
    match pages[0]
    case None => ListFailed
    case Some(roles) =>
      var i := FirstMatch(roles, base);
      if i < |roles| then Found(roles[i])
      else if |pages| > 1 then GetIamRole(pages[1..], base)
      else NotFound
  }

  /** The roles listed before the first page that fails. */
  function Listed(pages: seq<Page>): seq<Role> {
    if pages == [] || pages[0].None? then [] else pages[0].value + Listed(pages[1..])
  }

  predicate AllServed(pages: seq<Page>) { pages == [] || (pages[0].Some? && AllServed(pages[1..])) }

  /** Paging does not show: the lookup gives the first match of the whole listing, and
      fails only if there is none before a page that fails. */
  lemma {:induction false} LookupFindsFirst(pages: seq<Page>, base: seq<Byte>)
    requires pages != []
    ensures var roles := Listed(pages);
            var i := FirstMatch(roles, base);
            GetIamRole(pages, base) == if i < |roles| then Found(roles[i])
                                       else if AllServed(pages) then NotFound else ListFailed
  {
    if pages[0].Some? {
      var first, others := pages[0].value, pages[1..];
      FirstMatchConcat(first, Listed(others), base);
      if others != [] {
        LookupFindsFirst(others, base);
      }
    }
  }

  lemma {:induction false} FirstMatchConcat(a: seq<Role>, b: seq<Role>, base: seq<Byte>)
    ensures FirstMatch(a + b, base) == if FirstMatch(a, base) < |a| then FirstMatch(a, base)
                                       else |a| + FirstMatch(b, base)
  {
    if a == [] {
      assert a + b == b;
    } else {
      assert (a + b)[1..] == a[1..] + b;
      FirstMatchConcat(a[1..], b, base);
    }
  }

  /** A role created for a base of at most 54 characters is found again wherever it is
      listed, unless a role listed before it contains the base too. */
  lemma CreatedRoleIsFound(pages: seq<Page>, base: seq<Byte>, uuid: seq<Byte>, i: nat)
    requires pages != [] && |uuid| == UUID_LENGTH && |base| <= 54
    requires i < |Listed(pages)| && Listed(pages)[i].name == RoleName(base, uuid)
    ensures GetIamRole(pages, base).Found?
    ensures (forall j :: 0 <= j < i ==> !Contains(Listed(pages)[j].name, base))
            ==> GetIamRole(pages, base) == Found(Listed(pages)[i])
  {
    BaseLengths(base, uuid);
    LookupFindsFirst(pages, base);
    var _ := FirstMatch(Listed(pages), base);
  }

  /** A base and a hash of which the name does not keep the base. */
  ghost predicate TooLong(base: seq<Byte>, uuid: seq<Byte>) {
    var hash := ElfDigits(FullName(base, uuid));
    |base| + |hash| >= MAX_ROLE_NAME && !exists i: nat :: Straddles(base, hash, i)
  }

  /** A base too long for its hash, which does not straddle the cut: whatever else is listed,
      the lookup never gives a role created for it, so that the next run creates another. */
  lemma LongNamesPileUp(pages: seq<Page>, base: seq<Byte>, uuid: seq<Byte>, role: Role)
    requires pages != [] && |uuid| == UUID_LENGTH && role.name == RoleName(base, uuid)
    requires TooLong(base, uuid)
    ensures GetIamRole(pages, base) != Found(role)
  {
    NameKeepsBase(base, uuid);
    LookupFindsFirst(pages, base);
    var _ := FirstMatch(Listed(pages), base);
  }

  /** So if only such roles are listed, the lookup finds no role at all. */
  lemma OnlyLongNames(pages: seq<Page>, base: seq<Byte>, uuids: seq<seq<Byte>>)
    requires pages != [] && AllServed(pages) && |uuids| == |Listed(pages)|
    requires forall k :: 0 <= k < |uuids| ==> |uuids[k]| == UUID_LENGTH && TooLong(base, uuids[k])
    requires forall k :: 0 <= k < |uuids| ==> Listed(pages)[k].name == RoleName(base, uuids[k])
    ensures GetIamRole(pages, base) == NotFound
  {
    forall k | 0 <= k < |uuids|
      ensures !Contains(Listed(pages)[k].name, base)
    {
      NameKeepsBase(base, uuids[k]);
    }
    LookupFindsFirst(pages, base);
  }

  // ---------- the profile object ----------

  class IamProfile {
    const base: seq<Byte>
    var roleName: seq<Byte>
    var version: string

    constructor (base: seq<Byte>)
      ensures this.base == base && roleName == [] && version == ""
    {
      this.base, roleName, version := base, [], "";
    }

    /** The loop over one page and the recursion over the pages. */
    method FindRole(pages: seq<Page>) returns (found: Lookup)
      requires pages != []
      ensures found == GetIamRole(pages, base)
      decreases |pages|
    {
      if pages[0].None? {
        return ListFailed;
      }
      var roles := pages[0].value;
      for i := 0 to |roles|
        invariant forall j :: 0 <= j < i ==> !Contains(roles[j].name, base)
      {
        if Contains(roles[i].name, base) {
          return Found(roles[i]);
        }
      }
      if |pages| > 1 {
        found := FindRole(pages[1..]);
      } else {
        found := NotFound;
      }
    }

    /** Fetch: tag is the version tag of the role found, None if it cannot be read. */
    method Fetch(pages: seq<Page>, tag: Option<string>) returns (ok: bool)
      requires pages != []
      modifies this
      ensures var found := GetIamRole(pages, base);
              if found.Found? && found.role.name != [] then
                && roleName == found.role.name && ok == tag.Some?
                && version == (if tag.Some? then tag.value else old(version))
              else
                roleName == old(roleName) && version == old(version) && ok == !found.ListFailed?
    {
      var found := FindRole(pages);
      if found.ListFailed? {
        return false;
      }
      if found.NotFound? || found.role.name == [] {
        return true;
      }
      roleName := found.role.name;
      if tag.None? {
        return false;
      }
      version := tag.value;
      return true;
    }

    /** The name to create the role under: one that Fetch has found is used again; a new
        one is legal and, for a base of at most 54 characters, one that Fetch will find. */
    method ResourceName(uuid: seq<Byte>) returns (name: seq<Byte>)
      requires |uuid| == UUID_LENGTH
      ensures name == if roleName == [] then RoleName(base, uuid) else roleName
      ensures roleName == [] ==> |name| <= MAX_ROLE_NAME
      ensures roleName == [] && |base| <= 54 ==>
                forall pages, i :: pages != [] && 0 <= i < |Listed(pages)| && Listed(pages)[i].name == name ==>
                  GetIamRole(pages, base).Found?
    {
      if roleName == [] {
        name := RoleName(base, uuid);
        SuffixedFits(FullName(base, uuid), MAX_ROLE_NAME);
        forall pages, i | |base| <= 54 && pages != [] && 0 <= i < |Listed(pages)| && Listed(pages)[i].name == name
          ensures GetIamRole(pages, base).Found?
        {
          CreatedRoleIsFound(pages, base, uuid, i);
        }
        return;
      }
      return roleName;
    }
  }
}
