/** White space and trimming. */
module Strings {
  /** White space as Unicode has it, which is what Go's string functions trim and split at. */
  predicate IsSpace(c: char) {
    || c == ' ' || '\t' <= c <= '\r' || c == '\U{85}' || c == '\U{A0}'
    || c == '\U{1680}' || '\U{2000}' <= c <= '\U{200A}' || c == '\U{2028}' || c == '\U{2029}'
    || c == '\U{202F}' || c == '\U{205F}' || c == '\U{3000}'
  }

  function TrimLeft(s: string): string {
    if s != "" && IsSpace(s[0]) then TrimLeft(s[1..]) else s
  }

  function TrimRight(s: string): (t: string)
    ensures t <= s
  {
    if s != "" && IsSpace(s[|s| - 1]) then TrimRight(s[..|s| - 1]) else s
  }

  function Trim(s: string): string {
    TrimRight(TrimLeft(s))
  }

  /** No white space at either end. */
  predicate Trimmed(s: string) {
    s != "" ==> !IsSpace(s[0]) && !IsSpace(s[|s| - 1])
  }

  lemma {:induction false} TrimRightProperties(s: string)
    ensures var r := TrimRight(s);
            && r <= s && (r != "" ==> !IsSpace(r[|r| - 1]))
  {
    if s != "" && IsSpace(s[|s| - 1]) {
      TrimRightProperties(s[..|s| - 1]);
    }
  }

  lemma {:induction false} TrimLeftProperties(s: string)
    ensures var r := TrimLeft(s);
            && |r| <= |s| && r == s[|s| - |r|..] && (r != "" ==> !IsSpace(r[0]))
  {
    if s != "" && IsSpace(s[0]) {
      TrimLeftProperties(s[1..]);
    }
  }

  /** What lies outside the positions from i to j is white space. */
  predicate OnlySpaceOutside(s: string, i: nat, j: nat)
    requires i <= j <= |s|
  {
    && (forall k :: 0 <= k < i ==> IsSpace(s[k]))
    && (forall k :: j <= k < |s| ==> IsSpace(s[k]))
  }

  lemma {:induction false} TrimLeftCutsSpace(s: string)
    ensures var n := |s| - |TrimLeft(s)|;
            0 <= n <= |s| && TrimLeft(s) == s[n..] && OnlySpaceOutside(s, n, |s|)
  {
    if s != "" && IsSpace(s[0]) {
      TrimLeftCutsSpace(s[1..]);
    }
  }

  lemma {:induction false} TrimRightCutsSpace(s: string)
    ensures var n := |TrimRight(s)|;
            n <= |s| && TrimRight(s) == s[..n] && OnlySpaceOutside(s, 0, n)
  {
    if s != "" && IsSpace(s[|s| - 1]) {
      TrimRightCutsSpace(s[..|s| - 1]);
    }
  }

  /** Trimming cuts white space off the ends and nothing else. */
  lemma TrimCutsOnlySpace(s: string) returns (i: nat, j: nat)
    ensures i <= j <= |s| && Trim(s) == s[i..j] && OnlySpaceOutside(s, i, j)
  {
    TrimLeftCutsSpace(s);
    TrimRightCutsSpace(TrimLeft(s));
    i := |s| - |TrimLeft(s)|;
    j := i + |Trim(s)|;
  }

  lemma TrimIsTrimmed(s: string)
    ensures Trimmed(Trim(s))
    ensures forall c | c in Trim(s) :: c in s
  {
    TrimLeftProperties(s);
    TrimRightProperties(TrimLeft(s));
  }
}
