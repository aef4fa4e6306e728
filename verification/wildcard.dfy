/**
  The three functions of rper that work on the global template buffer
  wildcard_mode (a char[4], of which only the first three characters are
  read), identical in versions 0.1 and 0.2. The buffer is passed in; the
  template it holds is `wildcardMode[..3]`.
 */
module Wildcard {
  import opened Modes

  /**
    apply_wildcard_mode: keep the permission bits of `oldMode`, then for each
    group whose template character is not '*', clear the group and set it
    to the digit.
   */
  method ApplyWildcardMode(wildcardMode: array<char>, oldMode: Mode) returns (newMode: Mode)
    requires wildcardMode.Length == 4 && IsTemplate(wildcardMode[..3])
    ensures newMode == Applied(wildcardMode[..3], oldMode)
  {
    ghost var t := wildcardMode[..3];
    newMode := oldMode & PERM_MASK;
    for i := 0 to 3
      invariant newMode == AppliedUpTo(t, oldMode, i) && newMode <= PERM_MASK
    {
      var c := wildcardMode[i];
      assert c == t[i];
      if c != '*' {
        SetGroupKeeps(newMode, i, Digit(c));
        newMode := ClearAndSet(newMode, i, Digit(c));
      }
    }
    LoopApplies(t, oldMode);
  }

  /**
    The body of that loop for a digit slot: clear the bits of group `i`, then
    or in `d`. What this does to each group is SetGroupKeeps.
   */
  method ClearAndSet(m: Mode, i: nat, d: Mode) returns (n: Mode)
    requires i < 3 && m <= PERM_MASK && d <= 7
    ensures n == SetGroup(m, i, d)
  {
    n := m & !(7 << Shift(i));
    n := n | (d << Shift(i));
  }

  /** print_wildcard_mode: the three template characters, a '*' printed as '*'. */
  method PrintWildcardMode(wildcardMode: array<char>) returns (out: seq<char>)
    requires wildcardMode.Length == 4
    ensures out == wildcardMode[..3]
  {
    out := [];
    for i := 0 to 3
      invariant out == wildcardMode[..i]
    {
      if wildcardMode[i] != '*' {
        out := out + [wildcardMode[i]];
      } else {
        out := out + ['*'];
      }
    }
  }

  /**
    validate_and_process_octal: drop a leading '0' from a four-character
    argument, accept exactly three characters from "4567*" and store them;
    -1 and wildcard_mode untouched otherwise.
   */
  method ValidateAndProcessOctal(wildcardMode: array<char>, arg: string) returns (status: int)
    requires wildcardMode.Length == 4
    modifies wildcardMode
    ensures status == 0 || status == -1
    ensures status == 0 <==> ValidSpec(arg)
    ensures status == 0 ==> wildcardMode[..3] == Parse(arg).value
    ensures status == -1 ==> wildcardMode[..3] == old(wildcardMode[..3])
    ensures wildcardMode[3] == old(wildcardMode[3])
  {
    var s := arg;
    var len := |s|;
    if len == 4 && s[0] == '0' {
      s := s[1..];
      len := len - 1;
    }
    var n := StrSpn(s, ACCEPTED);
    if len != 3 || n != 3 {
      return -1;
    }
    assert AllAccepted(s);
    for i := 0 to 3
      invariant wildcardMode[..i] == s[..i]
      invariant wildcardMode[3] == old(wildcardMode[3])
    {
      wildcardMode[i] := s[i];
    }
    status := 0;
  }
}
