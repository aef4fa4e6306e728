/**
  The octal-with-wildcard mode specification shared by both versions of rper:
  the template grammar accepted on the command line (`-p`), the 9-bit
  permission arithmetic that applies a template to an existing mode, and
  strspn, the C library routine the validator relies on.

  A template is the 3-character array `wildcard_mode` in user, group, other
  order; each slot is either an octal digit or `*`, which keeps the original
  3 bits of that group.
 */
module Modes {

  /** mode_t: the 32-bit word of a stat record (file type and permission bits). */
  type Mode = bv32

  /** 0777: the read/write/execute bits of user, group and other. */
  const PERM_MASK: Mode := 0x1FF

  /** The character set handed to strspn by the validator ("4567*"). */
  const ACCEPTED: string := "4567*"

  datatype Option<T> = None | Some(value: T)

  /** A slot the apply loop can handle: `*` or an octal digit. */
  predicate IsSlot(c: char) {
    c == '*' || '0' <= c <= '7'
  }

  /** A stored template: three slots. */
  predicate IsTemplate(t: seq<char>) {
    |t| == 3 && IsSlot(t[0]) && IsSlot(t[1]) && IsSlot(t[2])
  }

  predicate AllAccepted(s: string) {
    forall k :: 0 <= k < |s| ==> s[k] in ACCEPTED
  }

  /**
    The grammar of `-p`: three characters from "4567*", optionally preceded by
    a single '0' (only when the whole argument has four characters).
   */
  predicate ValidSpec(s: string) {
    (|s| == 3 && AllAccepted(s)) || (|s| == 4 && s[0] == '0' && AllAccepted(s[1..]))
  }

  /** Bit position of group `i` (0 user, 1 group, 2 other): 6 - 3*i. */
  function Shift(i: nat): nat
    requires i < 3
  {
    6 - 3 * i
  }

  /** The 3 permission bits of group `i` of `m`. */
  function Group(m: Mode, i: nat): (g: Mode)
    requires i < 3
    ensures g <= 7
  {
    (m >> Shift(i)) & 7
  }

  /** The value of an octal digit character (wildcard_mode[i] - '0'). */
  function Digit(c: char): (d: Mode)
    requires '0' <= c <= '7'
    ensures d <= 7
  {
    match c
    case '0' => 0 case '1' => 1 case '2' => 2 case '3' => 3
    case '4' => 4 case '5' => 5 case '6' => 6 case '7' => 7
  }

  /** What slot `c` makes of group `i` of `m`. */
  function Slot(c: char, m: Mode, i: nat): (g: Mode)
    requires IsSlot(c) && i < 3
    ensures g <= 7
  {
    if c == '*' then Group(m, i) else Digit(c)
  }

  /**
    The permission value apply_wildcard_mode returns: 9 bits, group `i` taken
    from the old mode where slot `i` is `*` and from the digit otherwise.
   */
  function Applied(t: seq<char>, m: Mode): (r: Mode)
    requires IsTemplate(t)
    ensures r <= PERM_MASK
  {
    var u, g, o := Slot(t[0], m, 0), Slot(t[1], m, 1), Slot(t[2], m, 2);
    Compose(u, g, o);
    (u << 6) | (g << 3) | o
  }

  /**
    The group-wise rule of apply_wildcard_mode: a `*` slot keeps that group of
    the old mode, a digit slot sets the group to the digit.
   */
  lemma AppliedGroups(t: seq<char>, m: Mode)
    requires IsTemplate(t)
    ensures Group(Applied(t, m), 0) == Slot(t[0], m, 0)
    ensures Group(Applied(t, m), 1) == Slot(t[1], m, 1)
    ensures Group(Applied(t, m), 2) == Slot(t[2], m, 2)
  {
    Compose(Slot(t[0], m, 0), Slot(t[1], m, 1), Slot(t[2], m, 2));
  }

  /** Three 3-bit groups packed into a 9-bit value. */
  lemma Compose(u: Mode, g: Mode, o: Mode)
    requires u <= 7 && g <= 7 && o <= 7
    ensures (u << 6) | (g << 3) | o <= PERM_MASK
    ensures Group((u << 6) | (g << 3) | o, 0) == u
    ensures Group((u << 6) | (g << 3) | o, 1) == g
    ensures Group((u << 6) | (g << 3) | o, 2) == o
  {
    Groups((u << 6) | (g << 3) | o);
  }

  /** The three groups of a mode, spelled out with constant shifts. */
  lemma Groups(m: Mode)
    ensures Group(m, 0) == (m >> 6) & 7
    ensures Group(m, 1) == (m >> 3) & 7
    ensures Group(m, 2) == m & 7
  {
  }

  /** A 9-bit value is determined by its three groups. */
  lemma GroupsDetermine(a: Mode, b: Mode)
    requires a <= PERM_MASK && b <= PERM_MASK
    requires Group(a, 0) == Group(b, 0) && Group(a, 1) == Group(b, 1) && Group(a, 2) == Group(b, 2)
    ensures a == b
  {
    Groups(a);
    Groups(b);
  }

  /** Masking to 9 bits keeps every group. */
  lemma MaskKeepsGroups(m: Mode)
    ensures Group(m & PERM_MASK, 0) == Group(m, 0)
    ensures Group(m & PERM_MASK, 1) == Group(m, 1)
    ensures Group(m & PERM_MASK, 2) == Group(m, 2)
  {
    Groups(m);
    Groups(m & PERM_MASK);
    assert (m & PERM_MASK) >> 6 == (m >> 6) & 7;
    assert ((m & PERM_MASK) >> 3) & 7 == (m >> 3) & 7;
  }

  /** One step of the apply loop: clear group `i`, then or in `d`. */
  function SetGroup(m: Mode, i: nat, d: Mode): Mode
    requires i < 3
  {
    (m & !(7 << Shift(i))) | (d << Shift(i))
  }

  /** The apply loop after its first `n` iterations, starting from old_mode & 0777. */
  function AppliedUpTo(t: seq<char>, m: Mode, n: nat): Mode
    requires IsTemplate(t) && n <= 3
  {
    if n == 0 then m & PERM_MASK
    else
      var r := AppliedUpTo(t, m, n - 1);
      if t[n - 1] == '*' then r else SetGroup(r, n - 1, Digit(t[n - 1]))
  }

  /** The loop of apply_wildcard_mode, run to the end, computes Applied. */
  lemma LoopApplies(t: seq<char>, m: Mode)
    requires IsTemplate(t)
    ensures AppliedUpTo(t, m, 3) == Applied(t, m)
  {
    var r0, r1, r2, r3 := AppliedUpTo(t, m, 0), AppliedUpTo(t, m, 1), AppliedUpTo(t, m, 2), AppliedUpTo(t, m, 3);
    MaskKeepsGroups(m);
    Groups(r0);
    if t[0] != '*' { SetUser(r0, Digit(t[0])); }
    if t[1] != '*' { SetGroupBits(r1, Digit(t[1])); }
    if t[2] != '*' { SetOther(r2, Digit(t[2])); }
    AppliedGroups(t, m);
    GroupsDetermine(r3, Applied(t, m));
  }

  lemma SetUser(m: Mode, d: Mode)
    requires m <= PERM_MASK && d <= 7
    ensures SetGroup(m, 0, d) <= PERM_MASK
    ensures Group(SetGroup(m, 0, d), 0) == d
    ensures Group(SetGroup(m, 0, d), 1) == Group(m, 1) && Group(SetGroup(m, 0, d), 2) == Group(m, 2)
  {
    var n := SetGroup(m, 0, d);
    assert n == (m & 0x3F) | (d << 6);
    Groups(m);
    Groups(n);
  }

  lemma SetGroupBits(m: Mode, d: Mode)
    requires m <= PERM_MASK && d <= 7
    ensures SetGroup(m, 1, d) <= PERM_MASK
    ensures Group(SetGroup(m, 1, d), 1) == d
    ensures Group(SetGroup(m, 1, d), 0) == Group(m, 0) && Group(SetGroup(m, 1, d), 2) == Group(m, 2)
  {
    Groups(m);
    Groups(SetGroup(m, 1, d));
  }

  lemma SetOther(m: Mode, d: Mode)
    requires m <= PERM_MASK && d <= 7
    ensures SetGroup(m, 2, d) <= PERM_MASK
    ensures Group(SetGroup(m, 2, d), 2) == d
    ensures Group(SetGroup(m, 2, d), 0) == Group(m, 0) && Group(SetGroup(m, 2, d), 1) == Group(m, 1)
  {
    Groups(m);
    Groups(SetGroup(m, 2, d));
  }

  /** One step of the apply loop sets group `i` to `d` and keeps the other two groups. */
  lemma SetGroupKeeps(m: Mode, i: nat, d: Mode)
    requires i < 3 && m <= PERM_MASK && d <= 7
    ensures SetGroup(m, i, d) <= PERM_MASK && Group(SetGroup(m, i, d), i) == d
    ensures i != 0 ==> Group(SetGroup(m, i, d), 0) == Group(m, 0)
    ensures i != 1 ==> Group(SetGroup(m, i, d), 1) == Group(m, 1)
    ensures i != 2 ==> Group(SetGroup(m, i, d), 2) == Group(m, 2)
  {
    if i == 0 {
      SetUser(m, d);
    } else if i == 1 {
      SetGroupBits(m, d);
    } else {
      SetOther(m, d);
    }
  }

  /** The result depends only on the permission bits of the old mode. */
  lemma AppliedIgnoresTypeBits(t: seq<char>, m: Mode)
    requires IsTemplate(t)
    ensures Applied(t, m) == Applied(t, m & PERM_MASK)
  {
    MaskKeepsGroups(m);
    AppliedGroups(t, m);
    AppliedGroups(t, m & PERM_MASK);
    GroupsDetermine(Applied(t, m), Applied(t, m & PERM_MASK));
  }

  /** Applying a template twice is the same as applying it once. */
  lemma AppliedIdempotent(t: seq<char>, m: Mode)
    requires IsTemplate(t)
    ensures Applied(t, Applied(t, m)) == Applied(t, m)
  {
    var a := Applied(t, m);
    AppliedGroups(t, m);
    AppliedGroups(t, a);
    GroupsDetermine(a, Applied(t, a));
  }

  /** The all-wildcard template `***` returns the old permission bits unchanged. */
  lemma AllWildcardsKeep(m: Mode)
    ensures IsTemplate("***") && Applied("***", m) == m & PERM_MASK
  {
    MaskKeepsGroups(m);
    AppliedGroups("***", m);
    GroupsDetermine(Applied("***", m), m & PERM_MASK);
  }

  /** Slot `c` leaves group `i` of `m` as it is: a wildcard, or the digit the group already holds. */
  predicate SlotKeeps(c: char, m: Mode, i: nat)
    requires IsSlot(c) && i < 3
  {
    c == '*' || Group(m, i) == Digit(c)
  }

  /**
    A permission value is left as it is exactly when every digit slot already
    matches its group (this is the `old_mode == new_mode` test).
   */
  lemma AppliedFixedPoint(t: seq<char>, m: Mode)
    requires IsTemplate(t) && m <= PERM_MASK
    ensures Applied(t, m) == m <==> SlotKeeps(t[0], m, 0) && SlotKeeps(t[1], m, 1) && SlotKeeps(t[2], m, 2)
  {
    AppliedGroups(t, m);
    if SlotKeeps(t[0], m, 0) && SlotKeeps(t[1], m, 1) && SlotKeeps(t[2], m, 2) {
      GroupsDetermine(Applied(t, m), m);
    }
  }

  /** `755` applied to mode 644 gives 755. */
  lemma Example755(m: Mode)
    requires m == 0x1A4
    ensures IsTemplate("755") && Applied("755", m) == 0x1ED
  {
    var a := Applied("755", m);
    AppliedGroups("755", m);
    Groups(a);
    assert Group(a, 0) == 7 && Group(a, 1) == 5 && Group(a, 2) == 5;
  }

  /** `6*4` applied to mode 750 gives 654: the group bits 5 are kept. */
  lemma ExampleWildcard(m: Mode)
    requires m == 0x1E8
    ensures IsTemplate("6*4") && Applied("6*4", m) == 0x1AC
  {
    var a := Applied("6*4", m);
    AppliedGroups("6*4", m);
    Groups(a);
    Groups(m);
    assert Group(a, 0) == 6 && Group(a, 1) == 5 && Group(a, 2) == 4;
  }

  /** The argument as the validator goes on to check it: a four-character one loses a leading '0'. */
  function Stripped(s: string): string {
    if |s| == 4 && s[0] == '0' then s[1..] else s
  }

  /**
    The template `-p s` stores, when `s` is valid: the last three characters
    (the leading '0' of a four-character argument is stripped).
   */
  function Parse(s: string): (r: Option<seq<char>>)
    ensures r.Some? <==> ValidSpec(s)
    ensures r.Some? ==> IsTemplate(r.value) && AllAccepted(r.value)
    ensures r.Some? ==> s == (if |s| == 4 then "0" else "") + r.value
  {
    var t := Stripped(s);
    if |t| == 3 && AllAccepted(t) then
      assert forall k :: 0 <= k < 3 ==> IsSlot(t[k]) by {
        forall k | 0 <= k < 3 ensures IsSlot(t[k]) { assert t[k] in ACCEPTED; }
      }
      Some(t)
    else
      None
  }

  /**
    The validator accepts only the digits 4 to 7, so every group a stored
    template sets keeps its read bit: a run never takes read permission away.
   */
  lemma AcceptedDigitsKeepRead(s: string, m: Mode)
    requires ValidSpec(s)
    ensures forall i :: 0 <= i < 3 && Parse(s).value[i] != '*' ==> Group(Applied(Parse(s).value, m), i) & 4 == 4
  {
    var t := Parse(s).value;
    AppliedGroups(t, m);
    forall i | 0 <= i < 3 && t[i] != '*'
      ensures Group(Applied(t, m), i) & 4 == 4
    {
      assert t[i] in ACCEPTED;
    }
  }

  /**
    strspn(s, accept): the length of the longest prefix of `s` made only of
    characters of `accept`.
   */
  method StrSpn(s: string, accept: string) returns (n: nat)
    ensures n <= |s|
    ensures forall k :: 0 <= k < n ==> s[k] in accept
    ensures n < |s| ==> s[n] !in accept
  {
    n := 0;
    while n < |s| && s[n] in accept
      invariant n <= |s|
      invariant forall k :: 0 <= k < n ==> s[k] in accept
    {
      n := n + 1;
    }
  }
}
